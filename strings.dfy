/** The string operations the handlers rely on: `toLowerCase`,
    `toUpperCase`, `includes` and `trim`, and the identifier normalisation
    built from them. Case mapping covers the ASCII letters only. */
module Strings {

  function LowerChar(c: char): char
  {
    if 'A' <= c <= 'Z' then (c as int + 32) as char else c
  }

  function UpperChar(c: char): char
  {
    if 'a' <= c <= 'z' then (c as int - 32) as char else c
  }

  /** `s.toLowerCase()` */
  function Lower(s: string): (r: string)
    ensures |r| == |s|
    ensures forall i :: 0 <= i < |s| ==> r[i] == LowerChar(s[i])
  {
    seq(|s|, i requires 0 <= i < |s| => LowerChar(s[i]))
  }

  /** `s.toUpperCase()` */
  function Upper(s: string): (r: string)
    ensures |r| == |s|
    ensures forall i :: 0 <= i < |s| ==> r[i] == UpperChar(s[i])
  {
    seq(|s|, i requires 0 <= i < |s| => UpperChar(s[i]))
  }

  /** Lowering commutes with taking a slice. */
  lemma LowerSlice(s: string, i: int, j: int)
    requires 0 <= i <= j <= |s|
    ensures Lower(s)[i..j] == Lower(s[i..j])
  {
  }

  /** Lowering an upper-cased string gives the lowered original: upper and
      lower case spellings of a string are equal ignoring case. */
  lemma LowerOfUpper(s: string)
    ensures Lower(Upper(s)) == Lower(s)
  {
  }

  lemma LowerIdempotent(s: string)
    ensures Lower(Lower(s)) == Lower(s)
  {
  }

  /** `t` occurs in `s` starting at index `i`. */
  ghost predicate OccursAt(t: string, s: string, i: int)
  {
    0 <= i && i + |t| <= |s| && s[i..i + |t|] == t
  }

  /** `s.includes(t)`, searched from the left. */
  function Contains(s: string, t: string): (b: bool)
    ensures b <==> exists i :: OccursAt(t, s, i)
    decreases |s|
  {
    if |t| > |s| then
      false
    else if s[..|t|] == t then
      assert OccursAt(t, s, 0);
      true
    else
      ContainsShift(s, t);
      Contains(s[1..], t)
  }

  /** When `t` is not a prefix of `s`, its occurrences in `s` are those in `s[1..]`, shifted by one. */
  lemma ContainsShift(s: string, t: string)
    requires |t| <= |s| && s[..|t|] != t
    ensures |s| > 0
    ensures (exists i :: OccursAt(t, s, i)) <==> (exists i :: OccursAt(t, s[1..], i))
  {
    if i :| OccursAt(t, s, i) {
      assert i != 0;
      assert s[1..][i - 1..i - 1 + |t|] == s[i..i + |t|];
      assert OccursAt(t, s[1..], i - 1);
    }
    if i :| OccursAt(t, s[1..], i) {
      assert s[i + 1..i + 1 + |t|] == s[1..][i..i + |t|];
      assert OccursAt(t, s, i + 1);
    }
  }

  /** `w` occurs in `s` at index `i` when letter case is ignored. */
  ghost predicate MentionsAt(s: string, w: string, i: int)
  {
    0 <= i && i + |w| <= |s| && Lower(s[i..i + |w|]) == w
  }

  /** Some stretch of `s` reads as `w` ignoring case. */
  ghost predicate Mentions(s: string, w: string)
  {
    exists i :: MentionsAt(s, w, i)
  }

  /** `s.toLowerCase().includes(w)` finds exactly the case-insensitive occurrences of `w`. */
  lemma LowerContains(s: string, w: string)
    ensures Contains(Lower(s), w) <==> Mentions(s, w)
  {
    if i :| OccursAt(w, Lower(s), i) {
      LowerSlice(s, i, i + |w|);
      assert MentionsAt(s, w, i);
    }
    if i :| MentionsAt(s, w, i) {
      LowerSlice(s, i, i + |w|);
      assert OccursAt(w, Lower(s), i);
    }
  }

  /** Case-insensitive `includes`: the regex test `new RegExp(t, "i")` on a
      pattern without special characters. */
  function ContainsIgnoringCase(s: string, t: string): (b: bool)
    ensures b <==> Mentions(s, Lower(t))
  {
    LowerContains(s, Lower(t));
    Contains(Lower(s), Lower(t))
  }

  /** The characters `String.prototype.trim` removes: white space and line terminators. */
  predicate IsSpace(c: char)
  {
    var n := c as int;
    n == 0x09 || n == 0x0A || n == 0x0B || n == 0x0C || n == 0x0D || n == 0x20
    || n == 0xA0 || n == 0x1680 || (0x2000 <= n <= 0x200A) || n == 0x2028
    || n == 0x2029 || n == 0x202F || n == 0x205F || n == 0x3000 || n == 0xFEFF
  }

  lemma LowerCharKeepsSpace(c: char)
    ensures IsSpace(LowerChar(c)) <==> IsSpace(c)
  {
  }

  function TrimStart(s: string): (r: string)
    ensures |r| <= |s| && r == s[|s| - |r|..]
    ensures forall i :: 0 <= i < |s| - |r| ==> IsSpace(s[i])
    ensures r != [] ==> !IsSpace(r[0])
    decreases |s|
  {
    if s != [] && IsSpace(s[0]) then TrimStart(s[1..]) else s
  }

  function TrimEnd(s: string): (r: string)
    ensures |r| <= |s| && r == s[..|r|]
    ensures forall i :: |r| <= i < |s| ==> IsSpace(s[i])
    ensures r != [] ==> !IsSpace(r[|r| - 1])
    decreases |s|
  {
    if s != [] && IsSpace(s[|s| - 1]) then TrimEnd(s[..|s| - 1]) else s
  }

  /** `s.trim()`: the result is the stretch of `s` left after removing its
      leading and trailing white space. */
  function Trim(s: string): (r: string)
    ensures |r| <= |s|
    ensures r != [] ==> !IsSpace(r[0]) && !IsSpace(r[|r| - 1])
    ensures exists k :: TrimmedAt(s, r, k)
  {
    var a := TrimStart(s);
    var r := TrimEnd(a);
    assert TrimmedAt(s, r, |s| - |a|);
    r
  }

  /** `r` is `s[k..k + |r|]` and everything of `s` outside that stretch is white space. */
  ghost predicate TrimmedAt(s: string, r: string, k: int)
  {
    0 <= k && k + |r| <= |s| && r == s[k..k + |r|]
    && (forall i :: 0 <= i < k ==> IsSpace(s[i]))
    && (forall i :: k + |r| <= i < |s| ==> IsSpace(s[i]))
  }

  /** A string without white space at either end is its own trim. */
  lemma TrimOfTrimmed(s: string)
    requires s != [] ==> !IsSpace(s[0]) && !IsSpace(s[|s| - 1])
    ensures Trim(s) == s
  {
  }

  lemma TrimIdempotent(s: string)
    ensures Trim(Trim(s)) == Trim(s)
  {
  }

  /** `id.trim().toLowerCase()` */
  function Normalize(s: string): (r: string)
    ensures |r| <= |s|
    ensures r == Lower(r)
  {
    LowerIdempotent(Trim(s));
    Lower(Trim(s))
  }

  /** Normalising an already normalised identifier changes nothing. */
  lemma NormalizeIdempotent(s: string)
    ensures Normalize(Normalize(s)) == Normalize(s)
  {
    var u := Trim(s);
    var l := Lower(u);
    if l != [] {
      LowerCharKeepsSpace(u[0]);
      LowerCharKeepsSpace(u[|u| - 1]);
    }
    TrimOfTrimmed(l);
    LowerIdempotent(l);
  }
}
