/** List operations of .NET's List<T> that the core relies on. */
module Collections {

  /** No element occurs twice. */
  predicate NoDuplicates<T(==)>(s: seq<T>) {
    forall i, j | 0 <= i < j < |s| :: s[i] != s[j]
  }

  /** List<T>.IndexOf: the first position of `x` in `s`, or -1 when `x` is absent. */
  function IndexOf<T(==)>(s: seq<T>, x: T): (i: int)
    ensures -1 <= i < |s|
    ensures 0 <= i ==> s[i] == x && x !in s[..i]
    ensures i == -1 <==> x !in s
  {
    if |s| == 0 then -1
    else if s[0] == x then 0
    else
      var j := IndexOf(s[1..], x);
      if j < 0 then -1
      else
        assert s[..j + 1] == [s[0]] + s[1..][..j];
        j + 1
  }

  /** In a duplicate-free list every element is found at its own position. */
  lemma IndexOfDistinct<T>(s: seq<T>, i: int)
    requires NoDuplicates(s) && 0 <= i < |s|
    ensures IndexOf(s, s[i]) == i
  {
  }

  /** Appending leaves the positions of earlier elements alone and puts a new one last. */
  lemma {:induction false} IndexOfAppend<T>(s: seq<T>, y: T, x: T)
    ensures IndexOf(s + [y], x) == (if x in s then IndexOf(s, x) else if x == y then |s| else -1)
  {
    var t := s + [y];
    if x in s {
      var i := IndexOf(s, x);
      assert t[..i] == s[..i];
    } else if x == y {
      assert t[..|s|] == s;
    }
  }

  /** Appending an element that is not yet present keeps a list duplicate-free. */
  lemma AppendFreshNoDuplicates<T>(s: seq<T>, y: T)
    requires NoDuplicates(s) && y !in s
    ensures NoDuplicates(s + [y])
  {
  }
}
