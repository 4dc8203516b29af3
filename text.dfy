/** Character and string helpers: decimal rendering of numbers, ASCII and
    Latin-1 case mapping, and the join/split pair that CSV lines are built from. */
module Text {

  function DigitChar(d: nat): (c: char)
    requires d < 10
    ensures '0' <= c <= '9'
  {
    (d + '0' as int) as char
  }

  predicate IsDigit(c: char) { '0' <= c <= '9' }

  function DigitValue(c: char): (d: nat)
    requires IsDigit(c)
    ensures d < 10
  {
    (c as int - '0' as int) as nat
  }

  /** Decimal text of a natural number, as JavaScript's String(n) renders it. */
  function NatText(n: nat): (s: string)
    ensures |s| >= 1
    ensures forall i :: 0 <= i < |s| ==> IsDigit(s[i])
    ensures n > 0 ==> s[0] != '0'
    ensures n == 0 ==> s == "0"
    decreases n
  {
    if n < 10 then [DigitChar(n)] else NatText(n / 10) + [DigitChar(n % 10)]
  }

  /** Decimal text of an integer (a leading '-' for negative numbers). */
  function IntText(i: int): (s: string)
    ensures |s| >= 1
    ensures i >= 0 <==> s[0] != '-'
  {
    if i >= 0 then NatText(i) else "-" + NatText(-i)
  }

  /** The value of a string of decimal digits. */
  function DigitsValue(s: string): nat
    requires forall i :: 0 <= i < |s| ==> IsDigit(s[i])
  {
    if s == [] then 0 else DigitsValue(s[..|s| - 1]) * 10 + DigitValue(s[|s| - 1])
  }

  lemma {:induction false} DigitsValueOfNatText(n: nat)
    ensures DigitsValue(NatText(n)) == n
    decreases n
  {
    var s := NatText(n);
    if n >= 10 {
      DigitsValueOfNatText(n / 10);
      assert s[..|s| - 1] == NatText(n / 10);
    }
  }

  /** Decimal rendering is injective: different numbers never share a text. */
  lemma NatTextInjective(a: nat, b: nat)
    requires NatText(a) == NatText(b)
    ensures a == b
  {
    DigitsValueOfNatText(a);
    DigitsValueOfNatText(b);
  }

  /** The capital letters of ASCII and Latin-1 (U+00C0 to U+00DE without
      the multiplication sign), whose small letters lie 32 code points on. */
  predicate IsCapital(c: char)
  {
    'A' <= c <= 'Z' || ('\U{00C0}' <= c <= '\U{00DE}' && c != '\U{00D7}')
  }

  predicate IsSmall(c: char)
  {
    'a' <= c <= 'z' || ('\U{00E0}' <= c <= '\U{00FE}' && c != '\U{00F7}')
  }

  function LowerChar(c: char): (r: char)
    ensures !IsCapital(r)
  {
    if IsCapital(c) then (c as int + 32) as char else c
  }

  /** `toUpperCase` of one character of ASCII or Latin-1. Three small
      letters have no capital 32 code points back: the micro sign and
      y with diaeresis have theirs in Greek and Latin Extended-A, and the
      sharp s becomes "SS". */
  function UpperText(c: char): (r: string)
    ensures |r| == (if c == '\U{00DF}' then 2 else 1)
    ensures forall i :: 0 <= i < |r| ==> !IsSmall(r[i])
  {
    if IsSmall(c) then [(c as int - 32) as char]
    else if c == '\U{00B5}' then ['\U{039C}']
    else if c == '\U{00FF}' then ['\U{0178}']
    else if c == '\U{00DF}' then "SS"
    else [c]
  }

  /** The three characters U+201A U+00C4 U+00EE that frontend/features.js
      writes as its placeholder: an em dash whose UTF-8 bytes were read as
      Mac Roman. */
  const MisreadDash: string := "\U{201A}\U{00C4}\U{00EE}"

  /** No lower-cased text is that placeholder, since its second character
      is a capital. */
  lemma LowerNeverMisreadDash(s: string)
    ensures Lower(s) != MisreadDash
  {
    assert IsCapital(MisreadDash[1]);
  }

  /** String.prototype.toLowerCase, restricted to the ASCII and Latin-1
      letters. */
  function Lower(s: string): (r: string)
    ensures |r| == |s|
    ensures forall i :: 0 <= i < |r| ==> !IsCapital(r[i])
  {
    seq(|s|, i requires 0 <= i < |s| => LowerChar(s[i]))
  }

  /** `s.charAt(0).toUpperCase() + s.slice(1)`, restricted to the ASCII and
      Latin-1 letters. */
  function Capitalize(s: string): (r: string)
    ensures s == [] ==> r == []
    ensures s != [] ==> |r| == |s| + (if s[0] == '\U{00DF}' then 1 else 0)
    ensures s != [] ==> r[|r| - |s| + 1..] == s[1..] && !IsSmall(r[0])
    ensures s != [] && !IsSmall(s[0]) && s[0] !in {'\U{00B5}', '\U{00DF}', '\U{00FF}'} ==> r == s
  {
    if s == [] then [] else UpperText(s[0]) + s[1..]
  }

  /** Lower-casing undoes upper-casing for the letters with a Latin-1
      capital. */
  lemma LowerUndoesUpper(c: char)
    requires IsSmall(c)
    ensures Lower(UpperText(c)) == [c]
  {
    assert IsCapital(UpperText(c)[0]);
  }

  /** Array.prototype.join over strings. */
  function Join(parts: seq<string>, sep: string): string
  {
    if parts == [] then ""
    else if |parts| == 1 then parts[0]
    else parts[0] + sep + Join(parts[1..], sep)
  }

  /** A join begins with its first part. */
  lemma JoinStartsWith(parts: seq<string>, sep: string)
    requires parts != []
    ensures |Join(parts, sep)| >= |parts[0]| && Join(parts, sep)[..|parts[0]|] == parts[0]
  {
    if |parts| > 1 {
      assert Join(parts, sep) == parts[0] + (sep + Join(parts[1..], sep));
    }
  }

  /** String.prototype.split on one character: always at least one part. */
  function Split(s: string, c: char): (parts: seq<string>)
    ensures |parts| >= 1
    ensures forall i :: 0 <= i < |parts| ==> c !in parts[i]
  {
    if s == [] then [""]
    else if s[0] == c then [""] + Split(s[1..], c)
    else
      var rest := Split(s[1..], c);
      [[s[0]] + rest[0]] + rest[1..]
  }

  /** Splitting a string at the separators that joining put there gives back
      the parts, provided no part contains the separator. */
  lemma {:induction false} SplitJoin(parts: seq<string>, c: char)
    requires |parts| >= 1
    requires forall i :: 0 <= i < |parts| ==> c !in parts[i]
    ensures Split(Join(parts, [c]), c) == parts
    decreases parts
  {
    if |parts| == 1 {
      SplitNoSeparator(parts[0], c);
    } else {
      SplitJoin(parts[1..], c);
      SplitPrefix(parts[0], Join(parts[1..], [c]), c);
    }
  }

  lemma {:induction false} SplitNoSeparator(s: string, c: char)
    requires c !in s
    ensures Split(s, c) == [s]
    decreases s
  {
    if s != [] {
      assert s[0] in s;
      assert forall x :: x in s[1..] ==> x in s;
      SplitNoSeparator(s[1..], c);
      assert [s[0]] + s[1..] == s;
    }
  }

  lemma {:induction false} SplitPrefix(p: string, t: string, c: char)
    requires c !in p
    ensures Split(p + [c] + t, c) == [p] + Split(t, c)
    decreases p
  {
    if p == [] {
      assert p + [c] + t == [c] + t;
      assert ([c] + t)[1..] == t;
    } else {
      assert (p + [c] + t)[1..] == p[1..] + [c] + t;
      SplitPrefix(p[1..], t, c);
      assert [p[0]] + p[1..] == p;
    }
  }

  /** The largest array index plus one: property keys that spell a smaller
      natural number canonically are array indices, which JavaScript lists
      first, in ascending order, when it enumerates an object's keys. */
  const IndexKeyBound: nat := 4294967295

  predicate AllDigits(s: string)
  {
    forall i :: 0 <= i < |s| ==> IsDigit(s[i])
  }

  /** A property key that is the canonical decimal text of an array index. */
  predicate IsIndexKey(k: string)
  {
    |k| >= 1 && AllDigits(k) && (k[0] != '0' || k == "0") && DigitsValue(k) < IndexKeyBound
  }

  /** The index an index key spells. */
  function IndexValue(k: string): (n: nat)
    requires IsIndexKey(k)
    ensures n < IndexKeyBound
  {
    DigitsValue(k)
  }

  /** Every index below the bound has an index key, and it spells that index. */
  lemma NatTextIsIndexKey(n: nat)
    requires n < IndexKeyBound
    ensures IsIndexKey(NatText(n))
    ensures IndexValue(NatText(n)) == n
  {
    DigitsValueOfNatText(n);
  }

  /** Index keys and indices correspond one to one. */
  lemma {:induction false} IndexKeyCanonical(k: string)
    requires IsIndexKey(k)
    ensures NatText(IndexValue(k)) == k
  {
    CanonicalDigits(k);
  }

  lemma {:induction false} CanonicalDigits(k: string)
    requires |k| >= 1 && AllDigits(k) && (k[0] != '0' || k == "0")
    ensures NatText(DigitsValue(k)) == k
    decreases |k|
  {
    if |k| == 1 {
      assert DigitsValue(k) == DigitValue(k[0]);
      assert k[..0] == [];
    } else {
      var init := k[..|k| - 1];
      var last := k[|k| - 1];
      assert init[0] == k[0];
      CanonicalDigits(init);
      LeadingDigitPositive(init);
      var n := DigitsValue(k);
      assert n == DigitsValue(init) * 10 + DigitValue(last);
      DivideByTen(DigitsValue(init), DigitValue(last));
      assert DigitChar(DigitValue(last)) == last;
      assert k == init + [last];
    }
  }

  lemma DivideByTen(q: nat, d: nat)
    requires q >= 1 && d < 10
    ensures (q * 10 + d) / 10 == q && (q * 10 + d) % 10 == d && q * 10 + d >= 10
  {
  }

  lemma {:induction false} LeadingDigitPositive(k: string)
    requires |k| >= 1 && AllDigits(k) && k[0] != '0'
    ensures DigitsValue(k) >= 1
    decreases |k|
  {
    if |k| > 1 {
      assert k[..|k| - 1][0] == k[0];
      LeadingDigitPositive(k[..|k| - 1]);
    } else {
      assert k[..0] == [];
    }
  }

  /** JavaScript's `Math.round` for the values it is applied to here. */
  function JsRound(x: real): (n: int)
    ensures x - 0.5 < n as real <= x + 0.5
  {
    (x + 0.5).Floor
  }

  /** Python's `round` of a float to an integer: ties go to the even neighbour. */
  function RoundHalfEven(x: real): (n: int)
    ensures x - 0.5 <= n as real <= x + 0.5
    ensures (n as real - x == 0.5 || x - n as real == 0.5) ==> n % 2 == 0
  {
    var f := x.Floor;
    var d := x - f as real;
    if d < 0.5 then f
    else if d > 0.5 then f + 1
    else if f % 2 == 0 then f else f + 1
  }

  /** Python's `int()` of a float: truncation toward zero. */
  function Truncate(x: real): (n: int)
    ensures x >= 0.0 ==> 0 <= n && n as real <= x < n as real + 1.0
    ensures x < 0.0 ==> n as real - 1.0 < x <= n as real <= 0.0
  {
    if x >= 0.0 then x.Floor else -((-x).Floor)
  }
}
