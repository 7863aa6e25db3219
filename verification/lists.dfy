/** Python's `list.index` and `list.remove` on sequences: the list operations
    every hand update and the client registry of the game rely on. */
module Lists {

  /** `s.remove(x)`: drop the first element equal to `x`. Python raises when `x`
      is absent; callers here test membership first, so on an absent `x` the
      sequence is returned unchanged. */
  function RemoveFirst<T(==)>(s: seq<T>, x: T): (r: seq<T>)
    ensures x in s ==> |r| == |s| - 1 && multiset(r) == multiset(s) - multiset{x}
    ensures x !in s ==> r == s
  {
    if s == [] then []
    else if s[0] == x then
      assert s == [s[0]] + s[1..];
      s[1..]
    else
      assert s == [s[0]] + s[1..];
      [s[0]] + RemoveFirst(s[1..], x)
  }

  /** `s.index(x)`: the position of the first element equal to `x`. */
  function IndexOf<T(==)>(s: seq<T>, x: T): (i: nat)
    requires x in s
    ensures i < |s| && s[i] == x && x !in s[..i]
  {
    if s[0] == x then 0
    else
      var j := IndexOf(s[1..], x);
      assert s[..j + 1] == [s[0]] + s[1..][..j];
      j + 1
  }

  /** The first occurrence is the only position holding `x` with no `x` before it. */
  lemma {:induction false} IndexOfUnique<T>(s: seq<T>, x: T, i: nat)
    requires i < |s| && s[i] == x && x !in s[..i]
    ensures IndexOf(s, x) == i
  {
    if i > 0 {
      assert s[0] in s[..i];
      assert s[1..][i - 1] == x;
      assert s[1..][..i - 1] == s[..i][1..];
      IndexOfUnique(s[1..], x, i - 1);
    }
  }

  /** Removing `x` deletes exactly the element at its first position `i`;
      every other element keeps its relative order. */
  lemma {:induction false} RemoveFirstDeletesAt<T>(s: seq<T>, x: T, i: nat)
    requires i < |s| && s[i] == x && x !in s[..i]
    ensures RemoveFirst(s, x) == s[..i] + s[i + 1..]
  {
    if i > 0 {
      var t := s[1..];
      assert s[0] in s[..i];
      assert t[..i - 1] == s[1..i];
      RemoveFirstDeletesAt(t, x, i - 1);
      assert [s[0]] + t[..i - 1] == s[..i];
      assert t[i..] == s[i + 1..];
    }
  }
}
