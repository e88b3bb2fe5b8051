/** List semantics shared by the flush job and the merged read view of the
    deferred-save coordinator: Java's List.removeAll, followed by addAll. */
module Reconcile {

  /** List.removeAll: every element of s that occurs anywhere in del is
      deleted (all of its occurrences); the others keep their order. */
  function RemoveAll<T(==,!new)>(s: seq<T>, del: seq<T>): (r: seq<T>)
    ensures |r| <= |s|
    ensures forall x :: x in r <==> x in s && x !in del
  {
    if s == [] then []
    else if s[0] in del then RemoveAll(s[1..], del)
    else [s[0]] + RemoveAll(s[1..], del)
  }

  /** removeAll keeps every copy of an element not in del and no copy of one
      in del. */
  lemma {:induction false} RemoveAllCounts<T(!new)>(s: seq<T>, del: seq<T>, x: T)
    ensures multiset(RemoveAll(s, del))[x] == if x in del then 0 else multiset(s)[x]
  {
    if s != [] {
      assert s == [s[0]] + s[1..];
      RemoveAllCounts(s[1..], del, x);
    }
  }

  /** The results list after `removeAll(removes)` then `addAll(adds)`: what a
      flush writes into the store and what the merged read view returns. */
  function RemoveThenAdd<T(==,!new)>(results: seq<T>, removes: seq<T>, adds: seq<T>): (r: seq<T>)
    ensures |r| >= |adds| && r[|r| - |adds|..] == adds
    ensures forall x :: x in r <==> x in adds || (x in results && x !in removes)
  {
    RemoveAll(results, removes) + adds
  }

  /** How many copies of each record the store holds after remove-then-add. */
  lemma RemoveThenAddCounts<T(!new)>(results: seq<T>, removes: seq<T>, adds: seq<T>, x: T)
    ensures multiset(RemoveThenAdd(results, removes, adds))[x] ==
            (if x in removes then 0 else multiset(results)[x]) + multiset(adds)[x]
  {
    assert RemoveThenAdd(results, removes, adds) == RemoveAll(results, removes) + adds;
    RemoveAllCounts(results, removes, x);
  }

  /** The three buffers as a flush copies them. */
  datatype Snapshot<R, C> = Snapshot(adds: seq<R>, removes: seq<R>, configs: seq<C>)

  /** The flush's no-op test: no queued record either way, and the copied
      configuration list equal to the store's. */
  predicate NothingChanged<R, C(==)>(snap: Snapshot<R, C>, storeConfigs: seq<C>)
  {
    snap.adds == [] && snap.removes == [] && snap.configs == storeConfigs
  }

  /** Deleting elements none of which is present changes nothing. */
  lemma {:induction false} RemoveAllAbsent<T(!new)>(s: seq<T>, del: seq<T>)
    requires forall x :: x in s ==> x !in del
    ensures RemoveAll(s, del) == s
  {
    if s != [] {
      RemoveAllAbsent(s[1..], del);
    }
  }

  /** removeAll of nothing is the identity. */
  lemma {:induction false} RemoveAllNothing<T(!new)>(s: seq<T>)
    ensures RemoveAll(s, []) == s
  {
    RemoveAllAbsent(s, []);
  }

  /** removeAll distributes over concatenation, so it preserves order. */
  lemma {:induction false} RemoveAllAppend<T(!new)>(a: seq<T>, b: seq<T>, del: seq<T>)
    ensures RemoveAll(a + b, del) == RemoveAll(a, del) + RemoveAll(b, del)
  {
    if a == [] {
      assert a + b == b;
    } else {
      assert (a + b)[0] == a[0];
      assert (a + b)[1..] == a[1..] + b;
      RemoveAllAppend(a[1..], b, del);
    }
  }

  /** Removing two batches one after the other is removing their union. */
  lemma {:induction false} RemoveAllTwice<T(!new)>(s: seq<T>, d1: seq<T>, d2: seq<T>)
    ensures RemoveAll(RemoveAll(s, d1), d2) == RemoveAll(s, d1 + d2)
  {
    if s != [] {
      RemoveAllTwice(s[1..], d1, d2);
      if s[0] !in d1 {
        assert RemoveAll(s, d1) == [s[0]] + RemoveAll(s[1..], d1);
        assert RemoveAll(s, d1)[0] == s[0];
        assert RemoveAll(s, d1)[1..] == RemoveAll(s[1..], d1);
      }
    }
  }

  /** Once a flush has applied the snapshot to the store and the queues are
      empty, the merged view over the new store is the merged view it had
      before the flush. */
  lemma FlushKeepsMergedView<T(!new)>(results: seq<T>, removes: seq<T>, adds: seq<T>)
    ensures RemoveThenAdd(RemoveThenAdd(results, removes, adds), [], []) ==
            RemoveThenAdd(results, removes, adds)
  {
    var applied := RemoveAll(results, removes) + adds;
    assert RemoveThenAdd(results, removes, adds) == applied;
    RemoveAllNothing(applied);
    assert RemoveThenAdd(applied, [], []) == applied + [];
  }

  /** An edit appended to the queues shows up in the merged view at once:
      its removals act on what the earlier removals left of the store, and
      its additions follow the additions already queued. */
  lemma EditVisibleInMergedView<T(!new)>(results: seq<T>, removeQ: seq<T>, addQ: seq<T>,
                                   removes: seq<T>, adds: seq<T>)
    ensures RemoveThenAdd(results, removeQ + removes, addQ + adds) ==
            RemoveAll(RemoveAll(results, removeQ), removes) + addQ + adds
  {
    RemoveAllTwice(results, removeQ, removes);
  }

  /** A later removal that spares the records added after the store's kept
      part acts on the kept part alone. */
  lemma KeepAddedRecords<T(!new)>(kept: seq<T>, added: seq<T>, del: seq<T>)
    requires forall x :: x in added ==> x !in del
    ensures RemoveAll(kept + added, del) == RemoveAll(kept, del) + added
  {
    RemoveAllAppend(kept, added, del);
    RemoveAllAbsent(added, del);
  }

  /** Coalescing two edits into one flush gives the store the same results as
      flushing after each, provided the second edit removes none of the
      records the first one added. */
  lemma CoalescedFlushAgrees<T(!new)>(results: seq<T>, d1: seq<T>, a1: seq<T>, d2: seq<T>, a2: seq<T>)
    requires forall x :: x in a1 ==> x !in d2
    ensures RemoveThenAdd(RemoveThenAdd(results, d1, a1), d2, a2) ==
            RemoveThenAdd(results, d1 + d2, a1 + a2)
  {
    var kept := RemoveAll(results, d1);
    assert RemoveThenAdd(results, d1, a1) == kept + a1;
    KeepAddedRecords(kept, a1, d2);
    RemoveAllTwice(results, d1, d2);
    assert RemoveAll(kept, d2) + a1 + a2 == RemoveAll(kept, d2) + (a1 + a2);
  }

  /** Without that proviso coalescing is not the same: a record added by one
      edit and removed by the next is gone if a flush ran in between, and
      still present if both edits reached the same flush. */
  lemma CoalescedFlushCanKeepRemovedRecord()
    ensures RemoveThenAdd(RemoveThenAdd([], [], [7]), [7], []) == []
    ensures RemoveThenAdd([], [7], [7]) == [7]
  {
  }
}
