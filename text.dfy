/**
 * The parts of java.lang.String that the core relies on: trim/isEmpty,
 * contains, endsWith, ASCII case mapping, replace of one character,
 * split on a one-character separator (with Java's removal of trailing empty
 * pieces), and the decimal rendering of a long by String.format("%d").
 */
module Text {
  import opened Wrappers

  // ---------------------------------------------------------------- trim

  /** String.trim() removes every character whose code is at most U+0020 from both ends. */
  predicate IsTrimmed(c: char) {
    c <= ' '
  }

  function TrimStart(s: string): (r: string)
    ensures |r| <= |s|
    ensures r == s[|s| - |r|..]
    ensures |r| > 0 ==> !IsTrimmed(r[0])
  {
    if |s| > 0 && IsTrimmed(s[0]) then TrimStart(s[1..]) else s
  }

  function TrimEnd(s: string): (r: string)
    ensures |r| <= |s|
    ensures r == s[..|r|]
  {
    if |s| > 0 && IsTrimmed(s[|s| - 1]) then TrimEnd(s[..|s| - 1]) else s
  }

  function Trim(s: string): string {
    TrimEnd(TrimStart(s))
  }

  /** The reference meaning of `s.trim().isEmpty()`: every character is trimmed away. */
  predicate Blank(s: string) {
    forall i :: 0 <= i < |s| ==> IsTrimmed(s[i])
  }

  lemma {:induction false} TrimStartEmptyIffBlank(s: string)
    ensures TrimStart(s) == "" <==> Blank(s)
    decreases |s|
  {
    if |s| > 0 {
      if IsTrimmed(s[0]) {
        TrimStartEmptyIffBlank(s[1..]);
        if Blank(s[1..]) {
          forall i | 0 <= i < |s| ensures IsTrimmed(s[i]) {
            if i > 0 { assert s[i] == s[1..][i - 1]; }
          }
        }
        if Blank(s) {
          forall i | 0 <= i < |s[1..]| ensures IsTrimmed(s[1..][i]) {
            assert s[1..][i] == s[i + 1];
          }
        }
      } else {
        assert !Blank(s);
      }
    }
  }

  lemma {:induction false} TrimEndOfNonBlank(s: string)
    requires |s| > 0 && !IsTrimmed(s[0])
    ensures TrimEnd(s) != ""
    decreases |s|
  {
    if IsTrimmed(s[|s| - 1]) {
      assert |s| > 1;
      assert s[..|s| - 1][0] == s[0];
      TrimEndOfNonBlank(s[..|s| - 1]);
    }
  }

  /** `s.trim().isEmpty()` holds exactly when every character of `s` is at most U+0020. */
  lemma TrimEmptyIffBlank(s: string)
    ensures Trim(s) == "" <==> Blank(s)
  {
    TrimStartEmptyIffBlank(s);
    var t := TrimStart(s);
    if t != "" {
      assert !IsTrimmed(t[0]);
      TrimEndOfNonBlank(t);
    }
  }

  /** Java's `s == null || s.trim().isEmpty()`, with `null` as None. */
  predicate NullOrBlank(s: Option<string>) {
    s.None? || Trim(s.value) == ""
  }

  lemma NullOrBlankIff(s: Option<string>)
    ensures NullOrBlank(s) <==> s.None? || Blank(s.value)
  {
    if s.Some? {
      TrimEmptyIffBlank(s.value);
    }
  }

  // ------------------------------------------------------- contains, endsWith

  predicate StartsWith(s: string, t: string) {
    |t| <= |s| && s[..|t|] == t
  }

  /** String.contains, written as a scan over the start positions. */
  predicate Contains(s: string, t: string)
    decreases |s|
  {
    StartsWith(s, t) || (|s| > 0 && Contains(s[1..], t))
  }

  /** The reference meaning of `contains`: `t` occurs at some position of `s`. */
  ghost predicate OccursAt(s: string, t: string, i: int) {
    0 <= i && i + |t| <= |s| && s[i..i + |t|] == t
  }

  lemma {:induction false} ContainsIffOccurs(s: string, t: string)
    ensures Contains(s, t) <==> exists i :: OccursAt(s, t, i)
    decreases |s|
  {
    if StartsWith(s, t) {
      assert OccursAt(s, t, 0);
    } else if |s| > 0 {
      ContainsIffOccurs(s[1..], t);
      if Contains(s[1..], t) {
        var i :| OccursAt(s[1..], t, i);
        assert s[1..][i..i + |t|] == s[i + 1..i + 1 + |t|];
        assert OccursAt(s, t, i + 1);
      }
      if exists i :: OccursAt(s, t, i) {
        var i :| OccursAt(s, t, i);
        assert i != 0;
        assert s[1..][i - 1..i - 1 + |t|] == s[i..i + |t|];
        assert OccursAt(s[1..], t, i - 1);
      }
    }
  }

  /** A string contains every string that occurs inside it, wherever the surroundings. */
  lemma ContainsInfix(a: string, t: string, b: string)
    ensures Contains(a + t + b, t)
  {
    var s := a + t + b;
    assert s[|a|..|a| + |t|] == t;
    assert OccursAt(s, t, |a|);
    ContainsIffOccurs(s, t);
  }

  predicate EndsWith(s: string, t: string) {
    |t| <= |s| && s[|s| - |t|..] == t
  }

  /** Cutting a known prefix and suffix off a concatenation gives back the middle. */
  lemma Unframe(p: string, x: string, q: string)
    ensures var m := p + x + q;
      |m| >= |p| + |q| && StartsWith(m, p) && EndsWith(m, q) && m[|p|..|m| - |q|] == x
  {
    var m := p + x + q;
    assert m[..|p|] == p;
    assert m[|m| - |q|..] == q;
    assert m[|p|..|m| - |q|] == x;
  }

  /** The text between a known prefix and suffix, when the string has both. */
  function Between(m: string, p: string, q: string): Option<string> {
    if |m| >= |p| + |q| && StartsWith(m, p) && EndsWith(m, q) then Some(m[|p|..|m| - |q|]) else None
  }

  lemma BetweenFrame(p: string, x: string, q: string)
    ensures Between(p + x + q, p, q) == Some(x)
  {
    Unframe(p, x, q);
  }

  // ------------------------------------------------------- ASCII case mapping

  function Upper(c: char): char {
    if 'a' <= c <= 'z' then (c as int - 'a' as int + 'A' as int) as char else c
  }

  function Lower(c: char): char {
    if 'A' <= c <= 'Z' then (c as int - 'A' as int + 'a' as int) as char else c
  }

  /** String.toUpperCase on the ASCII letters. */
  function ToUpper(s: string): (r: string)
    ensures |r| == |s| && forall i :: 0 <= i < |s| ==> r[i] == Upper(s[i])
  {
    if s == [] then [] else [Upper(s[0])] + ToUpper(s[1..])
  }

  /** String.toLowerCase on the ASCII letters. */
  function ToLower(s: string): (r: string)
    ensures |r| == |s| && forall i :: 0 <= i < |s| ==> r[i] == Lower(s[i])
  {
    if s == [] then [] else [Lower(s[0])] + ToLower(s[1..])
  }

  /** Upper-casing forgets an earlier lower-casing: the two agree on letters up to case. */
  lemma UpperOfLower(s: string)
    ensures ToUpper(ToLower(s)) == ToUpper(s)
  {
    var a, b := ToUpper(ToLower(s)), ToUpper(s);
    forall i | 0 <= i < |s| ensures a[i] == b[i] {
      var c := s[i];
      assert a[i] == Upper(Lower(c));
    }
  }

  lemma UpperIdempotent(s: string)
    ensures ToUpper(ToUpper(s)) == ToUpper(s)
  {
    var a, b := ToUpper(ToUpper(s)), ToUpper(s);
    forall i | 0 <= i < |s| ensures a[i] == b[i] {
      assert a[i] == Upper(Upper(s[i]));
    }
  }

  // ------------------------------------------------------------- replace

  /** String.replace(c, r) where `c` is a one-character string: every occurrence is replaced. */
  function Replace(s: string, c: char, r: string): (res: string)
    ensures c !in r ==> c !in res
    ensures c !in s ==> res == s
    ensures |r| == 1 ==> |res| == |s|
  {
    if s == [] then [] else (if s[0] == c then r else [s[0]]) + Replace(s[1..], c, r)
  }

  lemma {:induction false} ReplaceAppend(a: string, b: string, c: char, r: string)
    ensures Replace(a + b, c, r) == Replace(a, c, r) + Replace(b, c, r)
    decreases |a|
  {
    if a == [] {
      assert a + b == b;
    } else {
      assert (a + b)[0] == a[0];
      assert (a + b)[1..] == a[1..] + b;
      ReplaceAppend(a[1..], b, c, r);
    }
  }

  /** Replacing by one character moves nothing: each position keeps its character or gets `r`. */
  lemma {:induction false} ReplaceOneCharAt(s: string, c: char, r: char, i: int)
    requires 0 <= i < |s|
    ensures |Replace(s, c, [r])| == |s|
    ensures Replace(s, c, [r])[i] == if s[i] == c then r else s[i]
    decreases |s|
  {
    if i > 0 {
      ReplaceOneCharAt(s[1..], c, r, i - 1);
    }
  }

  /** Replacing `c` by a character `d` the string does not contain is undone by replacing `d` by `c`. */
  lemma {:induction false} ReplaceBack(s: string, c: char, d: char)
    requires d !in s
    ensures Replace(Replace(s, c, [d]), d, [c]) == s
    decreases |s|
  {
    if s != [] {
      assert s[0] != d;
      assert forall k :: 0 <= k < |s[1..]| ==> s[1..][k] == s[k + 1];
      ReplaceBack(s[1..], c, d);
      var head := if s[0] == c then [d] else [s[0]];
      ReplaceAppend(head, Replace(s[1..], c, [d]), d, [c]);
      assert Replace(head, d, [c]) == [s[0]];
      assert [s[0]] + s[1..] == s;
    }
  }

  /** Lower-casing neither adds nor removes characters that are not letters. */
  lemma LowerKeepsNonLetter(s: string, c: char)
    requires !('A' <= c <= 'Z') && !('a' <= c <= 'z')
    ensures c in ToLower(s) <==> c in s
  {
    if c in ToLower(s) {
      var i :| 0 <= i < |s| && ToLower(s)[i] == c;
      assert s[i] == c;
    }
    if c in s {
      var i :| 0 <= i < |s| && s[i] == c;
      assert ToLower(s)[i] == c;
    }
  }

  // --------------------------------------------------------------- split

  /** The pieces of `s` between occurrences of `c`, empty pieces included. */
  function Pieces(s: string, c: char): (r: seq<string>)
    ensures |r| >= 1
    ensures forall i :: 0 <= i < |r| ==> c !in r[i]
  {
    if s == [] then [""]
    else
      var rest := Pieces(s[1..], c);
      if s[0] == c then [""] + rest else [[s[0]] + rest[0]] + rest[1..]
  }

  /** Joining the pieces back with the separator: the inverse of Pieces. */
  function Join(parts: seq<string>, c: char): string
    requires |parts| >= 1
  {
    if |parts| == 1 then parts[0] else parts[0] + [c] + Join(parts[1..], c)
  }

  lemma {:induction false} JoinPieces(s: string, c: char)
    ensures Join(Pieces(s, c), c) == s
    decreases |s|
  {
    if s != [] {
      var rest := Pieces(s[1..], c);
      JoinPieces(s[1..], c);
      if s[0] == c {
        assert Pieces(s, c)[1..] == rest;
        assert s == [c] + s[1..];
      } else {
        var p := Pieces(s, c);
        assert p[0] == [s[0]] + rest[0];
        if |rest| == 1 {
          assert s == [s[0]] + s[1..];
        } else {
          assert p[1..] == rest[1..];
          assert s == [s[0]] + s[1..];
        }
      }
    }
  }

  /** A string without the separator is one piece. */
  lemma {:induction false} PiecesOfPlain(x: string, c: char)
    requires c !in x
    ensures Pieces(x, c) == [x]
    decreases |x|
  {
    if x != [] {
      assert x[0] in x;
      assert forall k :: 0 <= k < |x[1..]| ==> x[1..][k] == x[k + 1];
      PiecesOfPlain(x[1..], c);
      assert [x[0]] + x[1..] == x;
    }
  }

  /** Splitting `x c y` where `x` has no separator: `x` comes first, then the pieces of `y`. */
  lemma {:induction false} PiecesAfterPlain(x: string, c: char, y: string)
    requires c !in x
    ensures Pieces(x + [c] + y, c) == [x] + Pieces(y, c)
    decreases |x|
  {
    var s := x + [c] + y;
    if x == [] {
      assert s[1..] == y;
    } else {
      assert x[0] in x;
      assert s[0] == x[0];
      assert s[1..] == x[1..] + [c] + y;
      assert forall k :: 0 <= k < |x[1..]| ==> x[1..][k] == x[k + 1];
      PiecesAfterPlain(x[1..], c, y);
      assert [x[0]] + x[1..] == x;
    }
  }

  function DropTrailingEmpty(parts: seq<string>): (r: seq<string>)
    ensures |r| <= |parts| && r == parts[..|r|]
    ensures |r| > 0 ==> r[|r| - 1] != ""
  {
    if |parts| > 0 && parts[|parts| - 1] == "" then DropTrailingEmpty(parts[..|parts| - 1]) else parts
  }

  /** Splitting `x c y c z`, none of the three containing the separator and `z` not empty, gives the three. */
  lemma SplitThree(x: string, y: string, z: string, c: char)
    requires c !in x && c !in y && c !in z && z != ""
    ensures JavaSplit(x + [c] + y + [c] + z, c) == [x, y, z]
  {
    var s := x + [c] + y + [c] + z;
    assert s == x + [c] + (y + [c] + z);
    assert s[|x|] == c;
    PiecesAfterPlain(x, c, y + [c] + z);
    PiecesAfterPlain(y, c, z);
    PiecesOfPlain(z, c);
    assert Pieces(s, c) == [x, y, z];
  }

  /**
   * String.split(regex) for a regex that matches the single character `c`:
   * with no occurrence the result is `[s]` (so "" gives [""]); otherwise the
   * pieces with every trailing empty piece removed.
   */
  function JavaSplit(s: string, c: char): seq<string> {
    if c !in s then [s] else DropTrailingEmpty(Pieces(s, c))
  }

  // ----------------------------------------------------- decimal rendering

  function DigitChar(d: int): char
    requires 0 <= d < 10
  {
    ('0' as int + d) as char
  }

  predicate IsDigit(c: char) {
    '0' <= c <= '9'
  }

  function NatToString(n: nat): (r: string)
    ensures |r| >= 1 && forall i :: 0 <= i < |r| ==> IsDigit(r[i])
  {
    if n < 10 then [DigitChar(n)] else NatToString(n / 10) + [DigitChar(n % 10)]
  }

  /** What String.format("%d", n) yields for a long `n`. */
  function IntToString(n: int): string {
    if n < 0 then "-" + NatToString(-n) else NatToString(n)
  }

  predicate AllDigits(s: string) {
    forall i :: 0 <= i < |s| ==> IsDigit(s[i])
  }

  function DigitsValue(s: string): nat
    requires AllDigits(s)
  {
    if s == [] then 0 else DigitsValue(s[..|s| - 1]) * 10 + (s[|s| - 1] as int - '0' as int)
  }

  /** Reading a decimal integer back: an optional '-' followed by at least one digit. */
  function ParseInt(s: string): Option<int> {
    if |s| > 1 && s[0] == '-' && AllDigits(s[1..]) then Some(-(DigitsValue(s[1..]) as int))
    else if |s| > 0 && AllDigits(s) then Some(DigitsValue(s))
    else None
  }

  lemma {:induction false} NatToStringValue(n: nat)
    ensures DigitsValue(NatToString(n)) == n
    decreases n
  {
    var r := NatToString(n);
    if n >= 10 {
      NatToStringValue(n / 10);
      assert r[..|r| - 1] == NatToString(n / 10);
    }
  }

  /** The text written by `%d` reads back as the same number. */
  lemma IntToStringRoundTrip(n: int)
    ensures ParseInt(IntToString(n)) == Some(n)
  {
    if n < 0 {
      var d := NatToString(-n);
      NatToStringValue(-n);
      assert IntToString(n)[1..] == d;
      assert IntToString(n)[0] == '-';
    } else {
      NatToStringValue(n);
      assert NatToString(n)[0] != '-';
    }
  }
}
