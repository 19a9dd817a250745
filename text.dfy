/**
 * The few string operations of Go's standard library the core relies on,
 * modelled minimally: decimal parsing (`strconv.Atoi` on unsigned digit
 * strings), decimal formatting (`%d`, `%02d`), `strings.Split` on one
 * separator character and `path.Join` of clean segments.
 */
module Text {
  import opened Common

  predicate IsDigit(c: char) {
    '0' <= c <= '9'
  }

  function DigitValue(c: char): nat
    requires IsDigit(c)
  {
    (c as int) - ('0' as int)
  }

  function DigitChar(d: nat): (c: char)
    requires d < 10
    ensures IsDigit(c) && DigitValue(c) == d
  {
    ('0' as int + d) as char
  }

  predicate AllDigits(s: string) {
    forall i :: 0 <= i < |s| ==> IsDigit(s[i])
  }

  /** The number a string of decimal digits denotes, most significant first. */
  function DigitsValue(s: string): nat
    requires AllDigits(s)
    decreases |s|
  {
    if |s| == 0 then 0
    else 10 * DigitsValue(s[..|s| - 1]) + DigitValue(s[|s| - 1])
  }

  /** `strconv.Atoi` on unsigned input: a non-empty run of decimal digits. */
  function ParseNat(s: string): (r: Option<nat>)
    ensures r.Some? <==> |s| > 0 && AllDigits(s)
  {
    if |s| > 0 && AllDigits(s) then Some(DigitsValue(s)) else None
  }

  /** The value of a two-digit string. */
  lemma DigitsValueTwo(s: string)
    requires |s| == 2 && AllDigits(s)
    ensures DigitsValue(s) == 10 * DigitValue(s[0]) + DigitValue(s[1])
  {
    assert s[..1][..0] == [];
    assert DigitsValue(s[..1]) == DigitValue(s[0]);
  }

  /** `fmt.Sprintf("%d", n)` for a non-negative `n`. */
  function NatToString(n: nat): (s: string)
    ensures |s| > 0 && AllDigits(s)
    ensures n < 10 <==> |s| == 1
    ensures s[0] == '0' ==> n == 0
    decreases n
  {
    if n < 10 then [DigitChar(n)] else NatToString(n / 10) + [DigitChar(n % 10)]
  }

  /** Formatting a number and parsing it back gives the number. */
  lemma {:induction false} ParseNatToString(n: nat)
    ensures ParseNat(NatToString(n)) == Some(n)
    decreases n
  {
    var s := NatToString(n);
    if n >= 10 {
      ParseNatToString(n / 10);
      assert s[..|s| - 1] == NatToString(n / 10);
      assert s[|s| - 1] == DigitChar(n % 10);
    } else {
      assert s[..0] == [];
    }
    assert DigitsValue(s) == 10 * DigitsValue(s[..|s| - 1]) + DigitValue(s[|s| - 1]);
  }

  /**
   * `fmt.Sprintf("%02d", n)` for a non-negative `n`: at least two digits, a
   * leading zero only to pad a single digit.
   */
  function Pad2(n: nat): (s: string)
    ensures |s| >= 2 && AllDigits(s)
    ensures ParseNat(s) == Some(n)
    ensures s[0] == '0' ==> |s| == 2
  {
    ParseNatToString(n);
    if n < 10 then
      var s := ['0', DigitChar(n)];
      assert s[..1] == ['0'] && s[..1][..0] == [];
      assert DigitsValue(s[..1]) == 0;
      assert DigitsValue(s) == 10 * DigitsValue(s[..1]) + DigitValue(s[1]);
      s
    else NatToString(n)
  }

  /** `strings.Split(s, string(sep))`: the pieces between separators, at least one. */
  function Split(s: string, sep: char): (items: seq<string>)
    ensures |items| >= 1
    ensures forall i :: 0 <= i < |items| ==> sep !in items[i]
    decreases |s|
  {
    if |s| == 0 then [""]
    else
      var rest := Split(s[1..], sep);
      if s[0] == sep then [""] + rest
      else [[s[0]] + rest[0]] + rest[1..]
  }

  /** A string without the separator splits into itself alone. */
  lemma {:induction false} SplitWithoutSep(s: string, sep: char)
    requires sep !in s
    ensures Split(s, sep) == [s]
    decreases |s|
  {
    if |s| > 0 {
      assert sep !in s[1..] by {
        forall i | 0 <= i < |s| - 1 ensures s[1..][i] != sep {
          assert s[1..][i] == s[i + 1];
        }
      }
      SplitWithoutSep(s[1..], sep);
      assert [s[0]] + s[1..] == s;
    }
  }

  /** The position of the first `c` in `s`, if any. */
  function IndexOf(s: string, c: char): (r: Option<nat>)
    ensures r.Some? ==> r.value < |s| && s[r.value] == c && c !in s[..r.value]
    ensures r.None? <==> c !in s
    decreases |s|
  {
    if |s| == 0 then None
    else if s[0] == c then Some(0)
    else
      var r := IndexOf(s[1..], c);
      if r.Some? then
        assert s[..r.value + 1] == [s[0]] + s[1..][..r.value];
        Some(r.value + 1)
      else
        None
  }

  /** A non-empty path segment without a trailing slash. */
  predicate Clean(s: string) {
    s != "" && s[|s| - 1] != '/'
  }

  /**
   * `path.Join(a, b)` of clean segments: an empty element is dropped and
   * exactly one slash separates the two parts.
   */
  function JoinPath(a: string, b: string): (p: string)
    ensures a != "" && b != "" ==> |p| > |a| && p[..|a|] == a
    ensures a != "" && b != "" && a[|a| - 1] != '/' ==> p == a + "/" + b
    ensures a == "" ==> p == b
    ensures b != "" ==> |p| >= |b| && p[|p| - |b|..] == b
    ensures Clean(b) ==> Clean(p)
  {
    if a == "" then b
    else if b == "" then a
    else if a[|a| - 1] == '/' then a + b
    else a + "/" + b
  }

  /** Joining onto a fixed non-empty base, distinct non-empty tails give distinct paths. */
  lemma JoinPathInjective(a: string, b1: string, b2: string)
    requires a != "" && b1 != "" && b2 != ""
    requires JoinPath(a, b1) == JoinPath(a, b2)
    ensures b1 == b2
  {
    var p1, p2 := JoinPath(a, b1), JoinPath(a, b2);
    var k := if a[|a| - 1] == '/' then |a| else |a| + 1;
    assert p1[k..] == b1;
    assert p2[k..] == b2;
  }
}
