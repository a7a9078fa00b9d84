/** The two pieces of string formatting the dialogs use: the decimal rendering of an integer
    (what C# string interpolation prints for an `int`) and `string.Join(", ", names)`.
    Each comes with the parser that undoes it, and a lemma that the round trip is the identity. */
module Format {
  import opened Wrappers

  predicate IsDigit(c: char) { '0' <= c <= '9' }

  predicate AllDigits(s: string) { forall i :: 0 <= i < |s| ==> IsDigit(s[i]) }

  /** A digit string as the renderer produces it: non-empty, no leading zero unless it is "0". */
  predicate Canonical(s: string) { |s| > 0 && AllDigits(s) && (s[0] == '0' ==> |s| == 1) }

  function DigitChar(d: nat): (c: char)
    requires d < 10
    ensures IsDigit(c) && (c as int - '0' as int) == d
  {
    (d + '0' as int) as char
  }

  function DigitValue(c: char): nat
    requires IsDigit(c)
  {
    c as int - '0' as int
  }

  /** Decimal digits of a natural number, most significant first. */
  function NatToString(n: nat): (s: string)
    ensures Canonical(s)
  {
    if n < 10 then [DigitChar(n)] else NatToString(n / 10) + [DigitChar(n % 10)]
  }

  /** What `{n}` prints for an `int` under the invariant culture: a '-' before the digits of a negative value. */
  function IntToString(n: int): string
  {
    if n < 0 then "-" + NatToString(-n) else NatToString(n)
  }

  /** The value of a digit string, most significant digit first. */
  function DigitsValue(s: string): nat
    requires AllDigits(s)
  {
    if |s| == 0 then 0 else DigitsValue(s[..|s| - 1]) * 10 + DigitValue(s[|s| - 1])
  }

  /** Reads back what IntToString prints; None for anything it cannot print. */
  function ParseInt(s: string): Option<int>
  {
    if |s| > 0 && s[0] == '-' then
      var t := s[1..];
      if Canonical(t) && t != "0" then Some(-(DigitsValue(t) as int)) else None
    else if Canonical(s) then Some(DigitsValue(s) as int)
    else None
  }

  lemma {:induction false} NatRoundTrip(n: nat)
    ensures DigitsValue(NatToString(n)) == n
  {
    var s := NatToString(n);
    if n >= 10 {
      NatRoundTrip(n / 10);
      assert s[..|s| - 1] == NatToString(n / 10);
    }
  }

  lemma {:induction false} DigitsRoundTrip(s: string)
    requires Canonical(s)
    ensures NatToString(DigitsValue(s)) == s
  {
    var k := |s| - 1;
    if k > 0 {
      var t := s[..k];
      assert Canonical(t) by {
        assert t[0] == s[0];
      }
      DigitsRoundTrip(t);
      assert DigitsValue(t) > 0 by {
        if DigitsValue(t) == 0 { ZeroDigits(t); }
      }
      var v := DigitsValue(s);
      assert v / 10 == DigitsValue(t) && v % 10 == DigitValue(s[k]);
      assert s == t + [s[k]];
    }
  }

  lemma {:induction false} ZeroDigits(s: string)
    requires AllDigits(s) && |s| > 0 && DigitsValue(s) == 0
    ensures forall i :: 0 <= i < |s| ==> s[i] == '0'
  {
    if |s| > 1 {
      ZeroDigits(s[..|s| - 1]);
    }
  }

  /** Every integer the dialogs print can be read back unchanged. */
  lemma IntRoundTrip(n: int)
    ensures ParseInt(IntToString(n)) == Some(n)
  {
    if n < 0 {
      var s := IntToString(n);
      assert s[1..] == NatToString(-n);
      NatRoundTrip(-n);
    } else {
      NatRoundTrip(n);
    }
  }

  /** Every string ParseInt accepts is the one IntToString prints for its value. */
  lemma ParseIntExact(s: string, n: int)
    requires ParseInt(s) == Some(n)
    ensures IntToString(n) == s
  {
    if |s| > 0 && s[0] == '-' {
      DigitsRoundTrip(s[1..]);
      assert s == "-" + s[1..];
    } else {
      DigitsRoundTrip(s);
    }
  }

  /** Rendering is injective: two different counts never print the same. */
  lemma IntToStringInjective(m: int, n: int)
    requires IntToString(m) == IntToString(n)
    ensures m == n
  {
    IntRoundTrip(m);
    IntRoundTrip(n);
  }

  /** `string.Join(", ", names)`. */
  function Join(names: seq<string>): string
  {
    if |names| == 0 then ""
    else if |names| == 1 then names[0]
    else names[0] + ", " + Join(names[1..])
  }

  /** Position of the first ',' in `s`, or |s| when there is none. */
  function CommaIndex(s: string): (i: nat)
    ensures i <= |s|
    ensures forall j :: 0 <= j < i ==> s[j] != ','
    ensures i < |s| ==> s[i] == ','
  {
    if |s| == 0 || s[0] == ',' then 0 else 1 + CommaIndex(s[1..])
  }

  /** Cuts a joined list back into its names: at every ',', dropping the one space after it. */
  function Split(s: string): (names: seq<string>)
    ensures |names| > 0
    decreases |s|
  {
    var i := CommaIndex(s);
    if i == |s| then [s]
    else
      var rest := s[i + 1..];
      [s[..i]] + Split(if |rest| > 0 && rest[0] == ' ' then rest[1..] else rest)
  }

  predicate NoComma(name: string) { forall j :: 0 <= j < |name| ==> name[j] != ',' }

  lemma CommaIndexAfter(a: string, b: string)
    requires NoComma(a) && |b| > 0 && b[0] == ','
    ensures CommaIndex(a + b) == |a|
  {
    var s := a + b;
    assert s[|a|] == ',';
    assert forall j :: 0 <= j < |a| ==> s[j] == a[j];
  }

  /** One name, the separator, then the rest: Split peels off exactly that name. */
  lemma SplitAfterName(a: string, t: string)
    requires NoComma(a)
    ensures Split(a + ", " + t) == [a] + Split(t)
  {
    var s := a + ", " + t;
    assert s == a + (", " + t);
    CommaIndexAfter(a, ", " + t);
    assert s[..|a|] == a;
    var rest := s[|a| + 1..];
    assert rest == " " + t;
    assert rest[1..] == t;
  }

  /** Splitting undoes joining, as long as the list is non-empty and no name contains a comma
      (an empty list and a list of one empty name both join to ""). */
  lemma {:induction false} SplitJoin(names: seq<string>)
    requires |names| > 0
    requires forall k :: 0 <= k < |names| ==> NoComma(names[k])
    ensures Split(Join(names)) == names
  {
    if |names| == 1 {
      assert CommaIndex(names[0]) == |names[0]|;
    } else {
      SplitAfterName(names[0], Join(names[1..]));
      SplitJoin(names[1..]);
      assert names == [names[0]] + names[1..];
    }
  }
}
