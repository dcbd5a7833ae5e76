/**
 * The two pieces of a Prisma `findMany` that the handlers rely on: an
 * `orderBy` on an integer key (stable insertion sort; the database does not
 * promise an order among equal keys) and `skip`/`take` paging.
 */
module Ordering {
  import opened Wrappers

  predicate SortedBy<T>(s: seq<T>, key: T -> int)
  {
    forall i, j :: 0 <= i < j < |s| ==> key(s[i]) <= key(s[j])
  }

  /** Inserts x in front of the first element whose key is not smaller. */
  function InsertBy<T(==)>(x: T, s: seq<T>, key: T -> int): (r: seq<T>)
    requires SortedBy(s, key)
    ensures |r| == |s| + 1
    ensures s == [] ==> r == [x]
    ensures s != [] ==> r[0] == x || r[0] == s[0]
    ensures SortedBy(r, key)
    ensures multiset(r) == multiset(s) + multiset{x}
  {
    if s == [] || key(x) <= key(s[0]) then [x] + s
    else
      assert s == [s[0]] + s[1..];
      [s[0]] + InsertBy(x, s[1..], key)
  }

  /** The elements of s in ascending order of key: a sorted permutation. */
  function SortBy<T(==)>(s: seq<T>, key: T -> int): (r: seq<T>)
    ensures |r| == |s|
    ensures SortedBy(r, key)
    ensures multiset(r) == multiset(s)
  {
    if s == [] then []
    else
      assert s == [s[0]] + s[1..];
      InsertBy(s[0], SortBy(s[1..], key), key)
  }

  /**
   * `skip`/`take`: the run of s that starts at position skip and holds at
   * most take elements (all remaining ones when take is absent).
   */
  function Window<T>(s: seq<T>, skip: nat, take: Option<nat>): (r: seq<T>)
    ensures take.None? ==> |r| == if skip <= |s| then |s| - skip else 0
    ensures take.Some? ==> |r| == if skip + take.value <= |s| then take.value
                                  else if skip <= |s| then |s| - skip else 0
    ensures skip <= |s| ==> r == s[skip..skip + |r|]
    ensures skip >= |s| ==> r == []
  {
    var lo := if skip <= |s| then skip else |s|;
    var hi := if take.None? || lo + take.value > |s| then |s| else lo + take.value;
    s[lo..hi]
  }

  /** Two adjacent windows make up the window that spans both. */
  lemma {:induction false} WindowSplit<T>(s: seq<T>, skip: nat, a: nat, b: nat)
    ensures Window(s, skip, Some(a + b)) == Window(s, skip, Some(a)) + Window(s, skip + a, Some(b))
  {
    var w, u, v := Window(s, skip, Some(a + b)), Window(s, skip, Some(a)), Window(s, skip + a, Some(b));
    if skip + a <= |s| {
      assert u == s[skip..skip + a];
      assert w == s[skip..skip + |w|];
      assert v == s[skip + a..skip + a + |v|];
      assert |w| == a + |v|;
      assert w == s[skip..skip + a] + s[skip + a..skip + a + |v|];
    } else {
      assert v == [];
    }
  }

  /** The sequence back to front. */
  function Reversed<T>(s: seq<T>): (r: seq<T>)
    ensures |r| == |s|
    ensures forall i :: 0 <= i < |s| ==> r[i] == s[|s| - 1 - i]
  {
    if s == [] then [] else Reversed(s[1..]) + [s[0]]
  }
}
