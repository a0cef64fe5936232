/**
 * Two small string helpers of the dashboard: `agregar_k`, which labels a
 * value in thousands, and the element id of a download button, derived from
 * a UUID's text by dropping its hyphens and then every run of digits.
 */
module DisplayText {
  import opened Wrappers

  /** A decimal digit as matched by `\d` on the ASCII text of a UUID. */
  predicate IsDigit(ch: char) {
    '0' <= ch <= '9'
  }

  predicate AllDigits(s: string) {
    forall i :: 0 <= i < |s| ==> IsDigit(s[i])
  }

  /*
   * The thousands label: an integer written in decimal, followed by the
   * letter K.
   */

  function DigitChar(d: nat): (ch: char)
    requires d < 10
    ensures IsDigit(ch) && ch as int - '0' as int == d
  {
    ('0' as int + d) as char
  }

  function DigitValue(ch: char): (d: nat)
    requires IsDigit(ch)
    ensures d < 10 && DigitChar(d) == ch
  {
    ch as int - '0' as int
  }

  /** The decimal numeral of `n` without leading zeros, as Python's `str` writes it. */
  function NatToDecimal(n: nat): (s: string)
    ensures |s| >= 1 && AllDigits(s)
    ensures s[0] == '0' ==> n == 0
    decreases n
  {
    if n < 10 then [DigitChar(n)] else NatToDecimal(n / 10) + [DigitChar(n % 10)]
  }

  /** The value of a string of decimal digits, read most significant digit first. */
  function DecimalValue(s: string): (n: nat)
    requires AllDigits(s)
  {
    if s == [] then 0 else DecimalValue(s[..|s| - 1]) * 10 + DigitValue(s[|s| - 1])
  }

  lemma {:induction false} DecimalRoundTrip(n: nat)
    ensures DecimalValue(NatToDecimal(n)) == n
  {
    var s := NatToDecimal(n);
    if n >= 10 {
      DecimalRoundTrip(n / 10);
      assert s[..|s| - 1] == NatToDecimal(n / 10);
    }
  }

  /** Python's `str` of an integer: an optional '-' and then the digits of its magnitude. */
  function IntToDecimal(v: int): (s: string)
    ensures |s| >= 1 && (s[0] == '-' <==> v < 0)
    ensures var digits := if v < 0 then s[1..] else s;
      |digits| >= 1 && AllDigits(digits) && (digits[0] == '0' ==> v == 0)
  {
    if v < 0 then "-" + NatToDecimal(-v) else NatToDecimal(v)
  }

  /** Reads back an integer written by IntToDecimal. */
  function ParseInt(s: string): (v: Option<int>)
  {
    if |s| > 1 && s[0] == '-' && AllDigits(s[1..]) then
      var magnitude: int := DecimalValue(s[1..]);
      Some(-magnitude)
    else if |s| > 0 && AllDigits(s) then Some(DecimalValue(s))
    else None
  }

  lemma IntToDecimalRoundTrip(v: int)
    ensures ParseInt(IntToDecimal(v)) == Some(v)
  {
    if v < 0 {
      DecimalRoundTrip(-v);
      assert IntToDecimal(v)[1..] == NatToDecimal(-v);
    } else {
      DecimalRoundTrip(v);
    }
  }

  /** `agregar_k(valor)`: the integer's text followed by 'K'. */
  function AgregarK(valor: int): (shown: string)
    ensures |shown| >= 2 && shown[|shown| - 1] == 'K'
    ensures ParseInt(shown[..|shown| - 1]) == Some(valor)
    ensures shown[..|shown| - 1] == IntToDecimal(valor)
  {
    var text := IntToDecimal(valor);
    IntToDecimalRoundTrip(valor);
    assert (text + "K")[..|text|] == text;
    text + "K"
  }

  /** Different values get different labels. */
  lemma AgregarKInjective(a: int, b: int)
    requires AgregarK(a) == AgregarK(b)
    ensures a == b
  {
  }

  /*
   * The download button's element id: the hyphens are removed from the
   * UUID's text, and then every run of digits is deleted.
   */

  /** Every occurrence of `c` removed, everything else kept in order. */
  function RemoveAll(s: string, c: char): (r: string)
    ensures c !in r
    ensures |r| <= |s|
    ensures forall x :: x != c ==> multiset(r)[x] == multiset(s)[x]
  {
    if s == [] then []
    else
      assert s == [s[0]] + s[1..];
      (if s[0] == c then [] else [s[0]]) + RemoveAll(s[1..], c)
  }

  lemma {:induction false} RemoveAllAppend(a: string, b: string, c: char)
    ensures RemoveAll(a + b, c) == RemoveAll(a, c) + RemoveAll(b, c)
  {
    if a == [] {
      assert a + b == b;
    } else {
      assert (a + b)[0] == a[0] && (a + b)[1..] == a[1..] + b;
      RemoveAllAppend(a[1..], b, c);
      assert RemoveAll(a + b, c) == (if a[0] == c then [] else [a[0]]) + RemoveAll(a[1..] + b, c);
    }
  }

  lemma {:induction false} RemoveAllAbsent(s: string, c: char)
    requires c !in s
    ensures RemoveAll(s, c) == s
  {
    if s != [] {
      RemoveAllAbsent(s[1..], c);
    }
  }

  /** Length of the run of digits that starts `s`. */
  function DigitRunLength(s: string): (k: nat)
    ensures k <= |s|
    ensures AllDigits(s[..k])
    ensures k < |s| ==> !IsDigit(s[k])
  {
    if s == [] || !IsDigit(s[0]) then 0 else 1 + DigitRunLength(s[1..])
  }

  /** Scanning left to right, each maximal run of digits is replaced by nothing. */
  function StripDigitRuns(s: string): (r: string)
    ensures forall i :: 0 <= i < |r| ==> !IsDigit(r[i])
    decreases |s|
  {
    if s == [] then []
    else if IsDigit(s[0]) then StripDigitRuns(s[DigitRunLength(s)..])
    else [s[0]] + StripDigitRuns(s[1..])
  }

  /** Reference definition: drop each digit on its own. */
  function RemoveDigits(s: string): (r: string)
    ensures |r| <= |s|
    ensures forall x :: multiset(r)[x] == if IsDigit(x) then 0 else multiset(s)[x]
  {
    if s == [] then []
    else
      assert s == [s[0]] + s[1..];
      (if IsDigit(s[0]) then [] else [s[0]]) + RemoveDigits(s[1..])
  }

  lemma {:induction false} RemoveDigitsSkipsRun(s: string, k: nat)
    requires k <= |s| && AllDigits(s[..k])
    ensures RemoveDigits(s) == RemoveDigits(s[k..])
  {
    if k > 0 {
      assert IsDigit(s[..k][0]);
      assert s[1..][..k - 1] == s[..k][1..];
      RemoveDigitsSkipsRun(s[1..], k - 1);
      assert s[1..][k - 1..] == s[k..];
    }
  }

  /** Deleting whole runs of digits deletes exactly the digits, one by one. */
  lemma {:induction false} StripDigitRunsIsRemoveDigits(s: string)
    ensures StripDigitRuns(s) == RemoveDigits(s)
    decreases |s|
  {
    if s != [] {
      if IsDigit(s[0]) {
        var k := DigitRunLength(s);
        RemoveDigitsSkipsRun(s, k);
        StripDigitRunsIsRemoveDigits(s[k..]);
      } else {
        StripDigitRunsIsRemoveDigits(s[1..]);
      }
    }
  }

  /** The id given to a download button whose UUID reads `uuidText`. */
  function ButtonId(uuidText: string): (id: string)
    ensures '-' !in id
    ensures forall i :: 0 <= i < |id| ==> !IsDigit(id[i])
    ensures forall x :: multiset(id)[x] == if x == '-' || IsDigit(x) then 0 else multiset(uuidText)[x]
  {
    var hex := RemoveAll(uuidText, '-');
    StripDigitRunsIsRemoveDigits(hex);
    StripDigitRuns(hex)
  }

  predicate IsLowerHex(ch: char) {
    IsDigit(ch) || 'a' <= ch <= 'f'
  }

  /** The text of a UUID as `str(uuid.uuid4())` writes it: 8-4-4-4-12 lower-case hex digits. */
  predicate IsCanonicalUuid(u: string) {
    && |u| == 36
    && u[8] == '-' && u[13] == '-' && u[18] == '-' && u[23] == '-'
    && forall i :: 0 <= i < 36 && i != 8 && i != 13 && i != 18 && i != 23 ==> IsLowerHex(u[i])
  }

  /** Removing `c` around one occurrence of it. */
  lemma RemoveAllSplit(s: string, i: nat, c: char)
    requires i < |s| && s[i] == c
    ensures RemoveAll(s, c) == RemoveAll(s[..i], c) + RemoveAll(s[i + 1..], c)
  {
    assert s == s[..i] + ([c] + s[i + 1..]);
    RemoveAllAppend(s[..i], [c] + s[i + 1..], c);
    RemoveAllAppend([c], s[i + 1..], c);
  }

  /** A stretch of a canonical UUID between two hyphens holds no hyphen. */
  lemma HexGroupHasNoHyphen(u: string, from: nat, to: nat)
    requires IsCanonicalUuid(u)
    requires from <= to
    requires to <= 8 || (9 <= from && to <= 13) || (14 <= from && to <= 18) || (19 <= from && to <= 23) || (24 <= from && to <= 36)
    ensures '-' !in u[from..to]
  {
  }

  /** Dropping the hyphens of a canonical UUID leaves its 32 hex digits. */
  lemma CanonicalUuidWithoutHyphens(u: string)
    requires IsCanonicalUuid(u)
    ensures |RemoveAll(u, '-')| == 32
  {
    var a := u[9..];
    var b := a[5..];
    var d := b[5..];
    RemoveAllSplit(u, 8, '-');
    RemoveAllSplit(a, 4, '-');
    RemoveAllSplit(b, 4, '-');
    RemoveAllSplit(d, 4, '-');
    assert a[..4] == u[9..13];
    assert b[..4] == u[14..18];
    assert d[..4] == u[19..23];
    assert d[5..] == u[24..36];
    HexGroupHasNoHyphen(u, 0, 8);
    HexGroupHasNoHyphen(u, 9, 13);
    HexGroupHasNoHyphen(u, 14, 18);
    HexGroupHasNoHyphen(u, 19, 23);
    HexGroupHasNoHyphen(u, 24, 36);
    RemoveAllAbsent(u[..8], '-');
    RemoveAllAbsent(a[..4], '-');
    RemoveAllAbsent(b[..4], '-');
    RemoveAllAbsent(d[..4], '-');
    RemoveAllAbsent(d[5..], '-');
  }

  /** Every character of a canonical UUID text is a hyphen or a lower-case hex digit. */
  lemma CanonicalUuidChar(u: string, x: char)
    requires IsCanonicalUuid(u) && x in u
    ensures x == '-' || IsLowerHex(x)
  {
    var j :| 0 <= j < |u| && u[j] == x;
    if j != 8 && j != 13 && j != 18 && j != 23 {
      assert IsLowerHex(u[j]);
    }
  }

  /** For a canonical UUID the button id is at most 32 characters, all letters 'a' to 'f'. */
  lemma CanonicalUuidButtonId(u: string)
    requires IsCanonicalUuid(u)
    ensures var id := ButtonId(u);
      |id| <= 32 && forall i :: 0 <= i < |id| ==> 'a' <= id[i] <= 'f'
  {
    var hex := RemoveAll(u, '-');
    CanonicalUuidWithoutHyphens(u);
    StripDigitRunsIsRemoveDigits(hex);
    ButtonIdLetters(u);
  }

  lemma ButtonIdLetters(u: string)
    requires IsCanonicalUuid(u)
    ensures forall i :: 0 <= i < |ButtonId(u)| ==> 'a' <= ButtonId(u)[i] <= 'f'
  {
    var id := ButtonId(u);
    forall i | 0 <= i < |id|
      ensures 'a' <= id[i] <= 'f'
    {
      var x := id[i];
      assert x in multiset(id);
      CanonicalUuidChar(u, x);
    }
  }
}
