/** Batches without links: the kernel may run them in any order, and has a schedule for each. */
module UnlinkedBatches {
  import opened World
  import opened Uring

  /** A ring with `batch` in its submission queue and nothing else. */
  function Queue(depth: nat, batch: seq<Op>, w: World): Ring {
    Ring(depth, Unlinked(batch), [], [], w)
  }

  function Singles<T>(items: seq<T>): (r: seq<seq<T>>)
    ensures |r| == |items| && forall i :: 0 <= i < |items| ==> r[i] == [items[i]]
  {
    seq(|items|, i requires 0 <= i < |items| => [items[i]])
  }

  lemma UnlinkedChains<T>(items: seq<T>, link: seq<bool>)
    requires |items| == |link| && forall i :: 0 <= i < |link| ==> !link[i]
    ensures Chains(items, link) == Singles(items)
  {
    if items != [] {
      UnlinkedChains(items[1..], link[1..]);
    }
  }

  lemma TakeOut(chains: seq<seq<Op>>, op: Op) returns (k: nat)
    requires AllSingle(chains)
    requires op in Flatten(chains)
    ensures k < |chains| && chains[k] == [op]
    ensures multiset(Flatten(Advance(chains, k))) == multiset(Flatten(chains)) - multiset{op}
  {
    k :| 0 <= k < |Flatten(chains)| && Flatten(chains)[k] == op;
    SinglesFlatten(chains, k);
    FlattenSplit(chains, k);
    FlattenAdvance(chains, k);
  }

  lemma HeadOut(order: seq<Op>)
    requires order != []
    ensures order[0] in multiset(order)
    ensures multiset(order[1..]) == multiset(order) - multiset{order[0]}
  {
    assert order == [order[0]] + order[1..];
  }

  lemma NoneLeft(chains: seq<seq<Op>>)
    requires NonEmpty(chains) && multiset(Flatten(chains)) == multiset{}
    ensures chains == []
  {
    assert |multiset(Flatten(chains))| == |Flatten(chains)|;
    FlattenNonEmpty(chains);
  }

  lemma {:induction false} AnyOrder(chains: seq<seq<Op>>, order: seq<Op>)
    requires AllSingle(chains)
    requires multiset(order) == multiset(Flatten(chains))
    ensures Merge(chains, order)
    decreases |order|
  {
    hide Flatten;
    if order == [] {
      NoneLeft(chains);
    } else {
      var first, rest := order[0], order[1..];
      HeadOut(order);
      var k := TakeOut(chains, first);
      AnyOrder(Advance(chains, k), rest);
      assert MergeFrom(chains, order, k);
    }
  }

  lemma SinglesFlatten(chains: seq<seq<Op>>, k: nat)
    requires AllSingle(chains)
    ensures |Flatten(chains)| == |chains|
    ensures k < |chains| ==> Flatten(chains)[k] == chains[k][0]
  {
    if chains != [] {
      SinglesFlatten(chains[1..], if k > 0 then k - 1 else 0);
    }
  }

  lemma QueueSubmits(depth: nat, batch: seq<Op>, w: World)
    ensures Submit(Queue(depth, batch, w)) == Ring(depth, [], Singles(batch), [], w)
    ensures Flatten(Singles(batch)) == batch
  {
    UnlinkedChains(batch, Links(Unlinked(batch)));
    assert [] + Singles(batch) == Singles(batch);
  }

  /** Some schedule runs the batch plainly in any given order. */
  lemma OrderReached(depth: nat, batch: seq<Op>, order: seq<Op>, w: World)
    requires multiset(order) == multiset(batch)
    ensures ByRun(Submit(Queue(depth, batch, w)), Plain(order, w), DoAll(order, w))
    ensures Takes(Submit(Queue(depth, batch, w)), order)
  {
    hide Runs, PostedBy, Plain, Submit, Queue, Merge, Flatten;
    var r := Submit(Queue(depth, batch, w));
    QueueSubmits(depth, batch, w);
    AnyOrder(Singles(batch), order);
    var sched := MergeReached(r, order);
  }

  /** Nothing is linked, so schedules complete the batch in exactly its permutations. */
  lemma AnyOrderIff(depth: nat, batch: seq<Op>, order: seq<Op>, w: World)
    ensures Takes(Submit(Queue(depth, batch, w)), order) <==> multiset(order) == multiset(batch)
  {
    hide Takes, Submit, Queue, Merge;
    var r := Submit(Queue(depth, batch, w));
    QueueSubmits(depth, batch, w);
    if Takes(r, order) {
      TakesMerge(r, order);
      MergeKeepsAll(r.flying, order);
    }
    if multiset(order) == multiset(batch) {
      OrderReached(depth, batch, order, w);
    }
  }
}
