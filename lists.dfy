/**
 * The few operations of .NET's List<T> and of LINQ that the store relies on,
 * stated on Dafny sequences.
 */
module Lists {

  /** List<T>.IndexOf: the position of the first occurrence of `x`, or -1. */
  function IndexOf<T(==)>(s: seq<T>, x: T): (i: int)
    ensures -1 <= i < |s|
    ensures i == -1 <==> x !in s
    ensures 0 <= i ==> s[i] == x && x !in s[..i]
  {
    if s == [] then -1
    else if s[0] == x then 0
    else
      var j := IndexOf(s[1..], x);
      assert j >= 0 ==> s[..j + 1] == [s[0]] + s[1..][..j];
      if j == -1 then -1 else j + 1
  }

  /**
   * List<T>.Remove: drops the first occurrence of `x`, if any, and keeps
   * every other element in its order.
   */
  function Remove<T(==)>(s: seq<T>, x: T): (r: seq<T>)
    ensures x !in s ==> r == s
    ensures x in s ==> |r| == |s| - 1
  {
    if s == [] then []
    else
      assert s == [s[0]] + s[1..];
      if s[0] == x then s[1..] else [s[0]] + Remove(s[1..], x)
  }

  /** Remove takes away one copy of `x` and nothing else. */
  lemma {:induction false} RemoveMultiset<T>(s: seq<T>, x: T)
    ensures multiset(Remove(s, x)) == multiset(s) - multiset{x}
  {
    if s != [] {
      assert s == [s[0]] + s[1..];
      if s[0] != x {
        RemoveMultiset(s[1..], x);
      }
    }
  }

  /** When `x` occurs, Remove cuts out exactly the position IndexOf reports. */
  lemma {:induction false} RemoveCutsFirstOccurrence<T>(s: seq<T>, x: T)
    requires x in s
    ensures Remove(s, x) == s[..IndexOf(s, x)] + s[IndexOf(s, x) + 1..]
  {
    if s[0] != x {
      var i := IndexOf(s[1..], x);
      RemoveCutsFirstOccurrence(s[1..], x);
      assert [s[0]] + s[1..][..i] == s[..i + 1];
      assert s[1..][i + 1..] == s[i + 2..];
    }
  }

  /**
   * Appending `x` and then removing `x` gives the list back when `x` was not
   * already there; when it was, it is the EARLIER occurrence that goes and the
   * appended one stays at the end.
   */
  lemma {:induction false} RemoveAfterAppend<T>(s: seq<T>, x: T)
    ensures x !in s ==> Remove(s + [x], x) == s
    ensures x in s ==> Remove(s + [x], x) == Remove(s, x) + [x]
  {
    if s != [] {
      assert (s + [x])[0] == s[0];
      assert (s + [x])[1..] == s[1..] + [x];
      if s[0] != x {
        RemoveAfterAppend(s[1..], x);
        assert x in s <==> x in s[1..];
        assert ([s[0]] + Remove(s[1..], x)) + [x] == [s[0]] + (Remove(s[1..], x) + [x]);
      }
    } else {
      assert Remove([x], x) == [];
    }
  }

  /**
   * For an element held at most once, a second Remove changes nothing: the
   * first one already took the only copy.
   */
  lemma RemoveTwiceOnSingle<T>(s: seq<T>, x: T)
    requires multiset(s)[x] <= 1
    ensures x !in Remove(s, x)
    ensures Remove(Remove(s, x), x) == Remove(s, x)
  {
    RemoveMultiset(s, x);
    assert multiset(Remove(s, x))[x] == 0;
  }

  /** Enumerable.Reverse. */
  function Reverse<T>(s: seq<T>): (r: seq<T>)
    ensures |r| == |s|
    ensures forall i :: 0 <= i < |s| ==> r[i] == s[|s| - 1 - i]
  {
    if s == [] then [] else Reverse(s[1..]) + [s[0]]
  }

  /** Enumerable.Aggregate with a seed: a left fold. */
  function Aggregate<T, Acc>(s: seq<T>, seed: Acc, f: (Acc, T) -> Acc): (r: Acc)
    ensures s == [] ==> r == seed
    ensures s != [] ==> r == f(Aggregate(s[..|s| - 1], seed, f), s[|s| - 1])
  {
    if s == [] then seed
    else
      assert s[1..] != [] ==> s[..|s| - 1][1..] == s[1..][..|s[1..]| - 1];
      Aggregate(s[1..], f(seed, s[0]), f)
  }

  /** Aggregating over one more element applies `f` once more, last. */
  lemma AggregateSnoc<T, Acc>(s: seq<T>, y: T, seed: Acc, f: (Acc, T) -> Acc)
    ensures Aggregate(s + [y], seed, f) == f(Aggregate(s, seed, f), y)
  {
    assert (s + [y])[..|s|] == s;
  }
}
