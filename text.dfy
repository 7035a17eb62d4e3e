/** String helpers with the meaning the modelled sources give them: decimal
    formatting and parsing of natural numbers, Python's `str.split`/`str.join`,
    `str.strip`, `str.lower`, `str.startswith` and JavaScript's `padStart`. */
module Text {
  import opened Wrappers

  predicate IsDigit(c: char) { '0' <= c <= '9' }

  /** A non-empty string of ASCII decimal digits. */
  predicate IsDigitString(s: string) {
    |s| > 0 && forall i :: 0 <= i < |s| ==> IsDigit(s[i])
  }

  function DigitChar(d: nat): (c: char)
    requires d < 10
    ensures IsDigit(c) && c as int - '0' as int == d
  {
    ('0' as int + d) as char
  }

  /** The number a string of digits denotes (leading zeros allowed). */
  function DigitsValue(s: string): nat
    requires forall i :: 0 <= i < |s| ==> IsDigit(s[i])
  {
    if |s| == 0 then 0
    else
      assert IsDigit(s[|s| - 1]);
      DigitsValue(s[..|s| - 1]) * 10 + (s[|s| - 1] as int - '0' as int)
  }

  /** JavaScript `n.toString()` and Python `str(n)` for a natural number. */
  function NatToString(n: nat): (s: string)
    ensures IsDigitString(s)
    ensures DigitsValue(s) == n
    ensures |s| == 1 <==> n < 10
    ensures n < 100 ==> |s| <= 2
  {
    if n < 10 then [DigitChar(n)]
    else
      var p := NatToString(n / 10);
      var s := p + [DigitChar(n % 10)];
      assert s[..|s| - 1] == p;
      s
  }

  /** Decimal formatting is injective, because parsing undoes it. */
  lemma NatToStringInjective(a: nat, b: nat)
    requires NatToString(a) == NatToString(b)
    ensures a == b
  {
    assert DigitsValue(NatToString(a)) == a;
  }

  /** Python `int(s)` restricted to plain digit strings; anything else raises. */
  function ParseNat(s: string): (r: Option<nat>)
    ensures r.Some? <==> IsDigitString(s)
  {
    if IsDigitString(s) then Some(DigitsValue(s)) else None
  }

  /** Parsing a formatted number gives the number back. */
  lemma ParseNatToString(n: nat)
    ensures ParseNat(NatToString(n)) == Some(n)
  {
  }

  /** JavaScript `s.padStart(2, '0')`. */
  function Pad2(s: string): (r: string)
    ensures |s| >= 2 ==> r == s
    ensures |s| < 2 ==> |r| == 2 && r[2 - |s|..] == s
    ensures |s| < 2 ==> forall i :: 0 <= i < 2 - |s| ==> r[i] == '0'
  {
    if |s| >= 2 then s else if |s| == 1 then ['0'] + s else "00"
  }

  /** Zero-padded rendering reads back as the number it renders; below 100 it has
      exactly two digits. */
  lemma {:induction false} Pad2NatToString(n: nat)
    ensures n < 100 ==> |Pad2(NatToString(n))| == 2
    ensures IsDigitString(Pad2(NatToString(n)))
    ensures DigitsValue(Pad2(NatToString(n))) == n
  {
    var s := NatToString(n);
    if n < 10 {
      var r := Pad2(s);
      assert r == ['0'] + s;
      assert r[..1] == ['0'];
      assert DigitsValue(r[..1]) == 0 by {
        assert r[..1][..0] == [];
      }
    }
  }

  /** sep occurs in s starting at index i. */
  predicate OccursAt(s: string, sep: string, i: nat) {
    i + |sep| <= |s| && s[i..i + |sep|] == sep
  }

  function IndexFrom(s: string, sep: string, from: nat): (r: Option<nat>)
    requires from <= |s|
    ensures r.Some? ==> from <= r.value && OccursAt(s, sep, r.value)
    ensures r.Some? ==> forall j :: from <= j < r.value ==> !OccursAt(s, sep, j)
    ensures r.None? ==> forall j :: from <= j <= |s| ==> !OccursAt(s, sep, j)
    decreases |s| - from
  {
    if OccursAt(s, sep, from) then Some(from)
    else if from == |s| then None
    else IndexFrom(s, sep, from + 1)
  }

  /** Python `s.find(sep)`: the first position where sep occurs. */
  function IndexOf(s: string, sep: string): (r: Option<nat>)
    ensures r.Some? ==> OccursAt(s, sep, r.value)
    ensures r.Some? ==> forall j :: 0 <= j < r.value ==> !OccursAt(s, sep, j)
    ensures r.None? ==> forall j :: 0 <= j <= |s| ==> !OccursAt(s, sep, j)
  {
    IndexFrom(s, sep, 0)
  }

  /** Python `sep in s`. */
  predicate Contains(s: string, sep: string) {
    exists i :: 0 <= i <= |s| && OccursAt(s, sep, i)
  }

  /** `sep in s` exactly when `s.find(sep)` finds it. */
  lemma ContainsIndexOf(s: string, sep: string)
    ensures Contains(s, sep) <==> IndexOf(s, sep).Some?
  {
    if IndexOf(s, sep).Some? {
      assert OccursAt(s, sep, IndexOf(s, sep).value);
    }
  }

  /** Python `s.split(sep)` for a non-empty separator: the pieces between the
      non-overlapping occurrences of sep, found left to right. */
  function Split(s: string, sep: string): (r: seq<string>)
    requires |sep| > 0
    ensures |r| >= 1
    ensures !Contains(s, sep) ==> r == [s]
    ensures Contains(s, sep) ==> |r| >= 2 && r[0] == s[..IndexOf(s, sep).value]
    ensures forall k :: 0 <= k < |r| ==> !Contains(r[k], sep)
    decreases |s|
  {
    match IndexOf(s, sep)
    case None => [s]
    case Some(i) =>
      var head := s[..i];
      assert !Contains(head, sep) by {
        if Contains(head, sep) {
          var j := IndexOf(head, sep).value;
          OccursInPrefix(s, sep, i, j);
        }
      }
      [head] + Split(s[i + |sep|..], sep)
  }

  lemma OccursInPrefix(s: string, sep: string, i: nat, j: nat)
    requires i <= |s| && OccursAt(s[..i], sep, j)
    ensures OccursAt(s, sep, j)
  {
    forall k | 0 <= k < |sep|
      ensures s[j..j + |sep|][k] == sep[k]
    {
      assert s[..i][j..j + |sep|][k] == sep[k];
    }
  }

  /** Python `sep.join(parts)`. */
  function Join(parts: seq<string>, sep: string): (r: string)
    ensures |parts| == 1 ==> r == parts[0]
  {
    if |parts| == 0 then ""
    else if |parts| == 1 then parts[0]
    else parts[0] + sep + Join(parts[1..], sep)
  }

  /** Joining the pieces of a split with the same separator gives back the string. */
  lemma {:induction false} JoinSplit(s: string, sep: string)
    requires |sep| > 0
    ensures Join(Split(s, sep), sep) == s
    decreases |s|
  {
    match IndexOf(s, sep)
    case None =>
    case Some(i) =>
      var rest := s[i + |sep|..];
      JoinSplit(rest, sep);
      assert s == s[..i] + sep + rest by {
        assert s[i..i + |sep|] == sep;
      }
  }

  /** The first occurrence of a one-character separator is right after a prefix that does not hold it. */
  lemma IndexOfChar(a: string, c: char, b: string)
    requires c !in a
    ensures IndexOf(a + [c] + b, [c]) == Some(|a|)
  {
    var s := a + [c] + b;
    assert OccursAt(s, [c], |a|) by {
      assert s[|a|..|a| + 1] == [c];
    }
    forall j | 0 <= j < |a|
      ensures !OccursAt(s, [c], j)
    {
      assert s[j..j + 1] == [a[j]];
    }
  }

  /** Python `(a + c + b).split(c)[0] == a` when a holds no c. */
  lemma SplitFirstPiece(a: string, c: char, b: string)
    requires c !in a
    ensures Split(a + [c] + b, [c])[0] == a
  {
    IndexOfChar(a, c, b);
    assert (a + [c] + b)[..|a|] == a;
  }

  lemma NotContainsChar(s: string, c: char)
    requires c !in s
    ensures !Contains(s, [c])
  {
    forall j | 0 <= j < |s|
      ensures !OccursAt(s, [c], j)
    {
      assert s[j..j + 1] == [s[j]];
    }
  }

  lemma ContainsCharIn(s: string, c: char)
    requires !Contains(s, [c])
    ensures c !in s
  {
    if c in s {
      var j :| 0 <= j < |s| && s[j] == c;
      assert s[j..j + 1] == [c];
      assert OccursAt(s, [c], j);
    }
  }

  /** Splitting a join on a one-character separator that no part holds gives the parts back. */
  lemma {:induction false} SplitJoin(parts: seq<string>, c: char)
    requires |parts| > 0
    requires forall k :: 0 <= k < |parts| ==> c !in parts[k]
    ensures Split(Join(parts, [c]), [c]) == parts
    decreases |parts|
  {
    if |parts| == 1 {
      NotContainsChar(parts[0], c);
    } else {
      var rest := Join(parts[1..], [c]);
      SplitJoin(parts[1..], c);
      IndexOfChar(parts[0], c, rest);
      var s := parts[0] + [c] + rest;
      assert s[..|parts[0]|] == parts[0];
      assert s[|parts[0]| + 1..] == rest;
    }
  }

  /** A split on one character has one more piece than there are occurrences of it. */
  lemma {:induction false} SplitCharCount(s: string, c: char)
    ensures |Split(s, [c])| == multiset(s)[c] + 1
    decreases |s|
  {
    match IndexOf(s, [c])
    case None =>
      ContainsCharIn(s, c);
    case Some(i) =>
      SplitCharCount(s[i + 1..], c);
      FirstOccurrenceCount(s, c, i);
  }

  /** Up to and including its first occurrence, a string holds exactly one c. */
  lemma FirstOccurrenceCount(s: string, c: char, i: nat)
    requires IndexOf(s, [c]) == Some(i)
    ensures multiset(s)[c] == 1 + multiset(s[i + 1..])[c]
  {
    assert s[i..i + 1] == [s[i]];
    assert c !in s[..i] by {
      if c in s[..i] {
        var j :| 0 <= j < i && s[..i][j] == c;
        assert s[j..j + 1] == [c];
        assert OccursAt(s, [c], j);
      }
    }
    assert s == s[..i] + [s[i]] + s[i + 1..];
  }

  /** A string made of n copies of x. */
  function Repeat<T>(x: T, n: nat): (r: seq<T>)
    ensures |r| == n && forall i :: 0 <= i < n ==> r[i] == x
  {
    if n == 0 then [] else [x] + Repeat(x, n - 1)
  }

  /** Python `s.startswith(p)`. */
  predicate StartsWith(s: string, p: string) {
    |p| <= |s| && s[..|p|] == p
  }

  /** The whitespace Python's `str.strip()` removes, restricted to ASCII: space,
      tab, line feed, vertical tab, form feed, carriage return and the four
      separators 0x1C to 0x1F. */
  predicate IsSpace(c: char) {
    c == ' ' || c == '\t' || c == '\n' || c == '\r' || c as int == 11 || c as int == 12 ||
    28 <= c as int <= 31
  }

  function StripLeft(s: string): (r: string)
    ensures |r| <= |s| && r == s[|s| - |r|..]
    ensures |r| > 0 ==> !IsSpace(r[0])
    ensures forall i :: 0 <= i < |s| - |r| ==> IsSpace(s[i])
  {
    if |s| > 0 && IsSpace(s[0]) then StripLeft(s[1..]) else s
  }

  function StripRight(s: string): (r: string)
    ensures |r| <= |s| && r == s[..|r|]
    ensures |r| > 0 ==> !IsSpace(r[|r| - 1])
    ensures forall i :: |r| <= i < |s| ==> IsSpace(s[i])
  {
    if |s| > 0 && IsSpace(s[|s| - 1]) then StripRight(s[..|s| - 1]) else s
  }

  /** r is s[a..b] and only whitespace lies outside [a, b). */
  predicate CutAtEnds(s: string, r: string, a: int, b: int) {
    0 <= a <= b <= |s| && r == s[a..b] &&
    (forall i :: 0 <= i < a ==> IsSpace(s[i])) && (forall i :: b <= i < |s| ==> IsSpace(s[i]))
  }

  /** Python `s.strip()`: the middle of `s` left once the whitespace at both
      ends is cut off, so no leading or trailing whitespace remains. */
  function Strip(s: string): (r: string)
    ensures |r| > 0 ==> !IsSpace(r[0]) && !IsSpace(r[|r| - 1])
    ensures exists a, b :: CutAtEnds(s, r, a, b)
  {
    var l := StripLeft(s);
    var r := StripRight(l);
    StripCut(s, l, r);
    r
  }

  /** Cutting the leading and then the trailing whitespace leaves a middle slice. */
  lemma StripCut(s: string, l: string, r: string)
    requires |l| <= |s| && l == s[|s| - |l|..] && forall i :: 0 <= i < |s| - |l| ==> IsSpace(s[i])
    requires |r| <= |l| && r == l[..|r|] && forall i :: |r| <= i < |l| ==> IsSpace(l[i])
    ensures CutAtEnds(s, r, |s| - |l|, |s| - |l| + |r|)
  {
    var a := |s| - |l|;
    var b := a + |r|;
    assert r == s[a..b];
    forall i | b <= i < |s|
      ensures IsSpace(s[i])
    {
      assert s[i] == l[i - a];
    }
  }

  /** A string with no whitespace at either end is its own strip. */
  lemma StripUnchanged(s: string)
    requires |s| > 0 && !IsSpace(s[0]) && !IsSpace(s[|s| - 1])
    ensures Strip(s) == s
  {
    assert StripLeft(s) == s;
    assert StripRight(s) == s;
  }

  function LowerChar(c: char): char {
    if 'A' <= c <= 'Z' then (c as int - 'A' as int + 'a' as int) as char else c
  }

  /** Python `s.lower()` on ASCII letters. */
  function Lower(s: string): (r: string)
    ensures |r| == |s|
    ensures forall i :: 0 <= i < |s| ==> r[i] == LowerChar(s[i])
  {
    if |s| == 0 then [] else [LowerChar(s[0])] + Lower(s[1..])
  }
}
