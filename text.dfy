/** The string operations of .NET that the core uses: Trim, ToLower and Contains. */
module Text {

  /** Char.IsWhiteSpace: the Unicode space separators, the line and paragraph separators and
      the control characters U+0009 to U+000D and U+0085. */
  predicate IsWhiteSpace(c: char) {
    || ('\t' <= c <= '\r')
    || c == ' '
    || c == '\U{0085}'
    || c == '\U{00A0}'
    || c == '\U{1680}'
    || ('\U{2000}' <= c <= '\U{200A}')
    || c == '\U{2028}'
    || c == '\U{2029}'
    || c == '\U{202F}'
    || c == '\U{205F}'
    || c == '\U{3000}'
  }

  /** Neither end of `s` is white space. */
  predicate IsTrimmed(s: string) {
    s == [] || (!IsWhiteSpace(s[0]) && !IsWhiteSpace(s[|s| - 1]))
  }

  /** String.TrimStart(): `s` without its leading white space. */
  function TrimStart(s: string): (r: string)
    ensures |r| <= |s| && r == s[|s| - |r|..]
    ensures forall i | 0 <= i < |s| - |r| :: IsWhiteSpace(s[i])
    ensures r == [] || !IsWhiteSpace(r[0])
  {
    if |s| > 0 && IsWhiteSpace(s[0]) then TrimStart(s[1..]) else s
  }

  /** String.TrimEnd(): `s` without its trailing white space. */
  function TrimEnd(s: string): (r: string)
    ensures |r| <= |s| && r == s[..|r|]
    ensures forall i | |r| <= i < |s| :: IsWhiteSpace(s[i])
    ensures r == [] || !IsWhiteSpace(r[|r| - 1])
  {
    if |s| > 0 && IsWhiteSpace(s[|s| - 1]) then TrimEnd(s[..|s| - 1]) else s
  }

  /** String.Trim(): a middle slice of `s`, with only white space cut off either side,
      whose ends are not white space; text that is already trimmed is returned as it is. */
  function Trim(s: string): (r: string)
    ensures IsTrimmed(r)
    ensures IsTrimmed(s) ==> r == s
    ensures exists k :: TrimmedAt(s, r, k)
  {
    TrimParts(s);
    TrimEnd(TrimStart(s))
  }

  /** TrimEnd after TrimStart cuts only white space, and nothing from trimmed text. */
  lemma TrimParts(s: string)
    ensures TrimmedAt(s, TrimEnd(TrimStart(s)), |s| - |TrimStart(s)|)
    ensures IsTrimmed(s) ==> TrimEnd(TrimStart(s)) == s
  {
    var front := TrimStart(s);
    SliceOfSlice(s, front, TrimEnd(front), |s| - |front|);
    if IsTrimmed(s) && s != [] {
      assert front == s;
    }
  }

  /** A prefix `r` of the suffix `front` of `s` starting at `k` sits in `s` at `k`. */
  lemma SliceOfSlice(s: string, front: string, r: string, k: int)
    requires 0 <= k <= |s| && front == s[k..] && |r| <= |front| && r == front[..|r|]
    requires forall i | 0 <= i < k :: IsWhiteSpace(s[i])
    requires forall i | |r| <= i < |front| :: IsWhiteSpace(front[i])
    ensures TrimmedAt(s, r, k)
  {
    assert s[k..k + |r|] == r;
    forall i | k + |r| <= i < |s|
      ensures IsWhiteSpace(s[i])
    {
      assert s[i] == front[i - k];
    }
  }

  /** `r` is the slice of `s` starting at `k`, and everything of `s` outside it is white space. */
  predicate TrimmedAt(s: string, r: string, k: int) {
    && 0 <= k <= |s| - |r|
    && s[k..k + |r|] == r
    && (forall i | 0 <= i < k :: IsWhiteSpace(s[i]))
    && (forall i | k + |r| <= i < |s| :: IsWhiteSpace(s[i]))
  }

  /** Appending white space does not change what TrimEnd keeps. */
  lemma TrimEndAppendSpace(s: string, c: char)
    requires IsWhiteSpace(c)
    ensures TrimEnd(s + [c]) == TrimEnd(s)
  {
    assert (s + [c])[..|s|] == s;
  }

  /** TrimStart of `s + [c]` is TrimStart(s) + [c], unless `s` was all white space. */
  lemma {:induction false} TrimStartAppend(s: string, c: char)
    ensures TrimStart(s + [c]) == if TrimStart(s) == [] then TrimStart([c]) else TrimStart(s) + [c]
  {
    if |s| > 0 {
      assert (s + [c])[0] == s[0];
      if IsWhiteSpace(s[0]) {
        assert (s + [c])[1..] == s[1..] + [c];
        TrimStartAppend(s[1..], c);
      }
    } else {
      assert s + [c] == [c];
    }
  }

  /** A trailing blank is dropped by Trim: Trim(s + " ") == Trim(s). */
  lemma TrimDropsTrailingSpace(s: string)
    ensures Trim(s + " ") == Trim(s)
  {
    TrimStartAppend(s, ' ');
    if TrimStart(s) != [] {
      TrimEndAppendSpace(TrimStart(s), ' ');
    }
  }

  /** String.ToLower on the ASCII letters A to Z. */
  function ToLowerChar(c: char): (l: char)
    ensures !('A' <= l <= 'Z')
    ensures !('A' <= c <= 'Z') ==> l == c
  {
    if 'A' <= c <= 'Z' then (c as int - 'A' as int + 'a' as int) as char else c
  }

  /** String.ToLower: the same text with every ASCII capital replaced by its small letter. */
  function ToLower(s: string): (r: string)
    ensures |r| == |s|
    ensures forall i | 0 <= i < |s| :: r[i] == ToLowerChar(s[i])
  {
    seq(|s|, i requires 0 <= i < |s| => ToLowerChar(s[i]))
  }

  /** Lowering twice is lowering once. */
  lemma ToLowerIdempotent(s: string)
    ensures ToLower(ToLower(s)) == ToLower(s)
  {
  }

  /** `sub` occurs in `s` at position `i`. */
  predicate OccursAt(s: string, sub: string, i: int) {
    0 <= i <= |s| - |sub| && s[i..i + |sub|] == sub
  }

  /** String.Contains (ordinal): `sub` occurs somewhere in `s`. */
  function Contains(s: string, sub: string): (b: bool)
    ensures b <==> exists i :: OccursAt(s, sub, i)
    decreases |s|
  {
    if |sub| <= |s| && s[..|sub|] == sub then
      assert OccursAt(s, sub, 0);
      true
    else if |s| == 0 then
      false
    else
      var b := Contains(s[1..], sub);
      if b then
        var i :| OccursAt(s[1..], sub, i);
        assert OccursAt(s, sub, i + 1);
        true
      else
        assert forall i | OccursAt(s, sub, i) :: OccursAt(s[1..], sub, i - 1);
        false
  }

  /** Whatever contains `a + b` contains `a`. */
  lemma ContainsPrefixOfNeedle(s: string, a: string, b: string)
    requires Contains(s, a + b)
    ensures Contains(s, a)
  {
    var i :| OccursAt(s, a + b, i);
    assert s[i..i + |a|] == (a + b)[..|a|];
    assert OccursAt(s, a, i);
  }
}
