/** A model of io_uring as its clients see it: a bounded submission queue, link chains in
    flight, a completion queue, and a kernel that runs the chains in any order.

    Assumed of the kernel: a submit hands over the whole queue; every request posts exactly
    one completion; an error, or a short read or write, inside a chain cancels the rest of
    that chain; no completion is dropped. */
module Uring {
  import opened World

  datatype Sqe = Sqe(op: Op, link: bool)

  datatype Ring = Ring(depth: nat, sq: seq<Sqe>, flying: seq<seq<Op>>, cq: seq<Cqe>, world: World)

  /** One kernel step: advance chain `pick`, treating its first request as `fault` says. */
  datatype Choice = Choice(pick: nat, fault: Fault)

  // ---------- Chains ----------

  function Flatten<T>(chains: seq<seq<T>>): seq<T> {
    if chains == [] then [] else chains[0] + Flatten(chains[1..])
  }

  ghost predicate NonEmpty<T>(chains: seq<seq<T>>) {
    forall i :: 0 <= i < |chains| ==> chains[i] != []
  }

  /** Full batches of `size` items, the last one possibly smaller but not empty. */
  ghost predicate CutInto<T>(batches: seq<seq<T>>, items: seq<T>, size: nat) {
    && Flatten(batches) == items
    && forall i :: 0 <= i < |batches| ==>
         0 < |batches[i]| <= size && (i < |batches| - 1 ==> |batches[i]| == size)
  }

  /** A queue cut behind every entry whose link flag is off. */
  function Chains<T>(items: seq<T>, link: seq<bool>): (r: seq<seq<T>>)
    requires |items| == |link|
    ensures NonEmpty(r) && Flatten(r) == items
    ensures items != [] ==> r != []
  {
    if items == [] then []
    else
      var rest := Chains(items[1..], link[1..]);
      if link[0] && rest != [] then [[items[0]] + rest[0]] + rest[1..] else [[items[0]]] + rest
  }

  /** The chains once the first entry of chain `i` is gone. */
  function Advance<T>(chains: seq<seq<T>>, i: nat): (r: seq<seq<T>>)
    requires i < |chains| && chains[i] != []
    ensures NonEmpty(chains) ==> NonEmpty(r)
  {
    chains[..i] + (if |chains[i]| == 1 then [] else [chains[i][1..]]) + chains[i + 1..]
  }

  function Without<T>(chains: seq<seq<T>>, i: nat): (r: seq<seq<T>>)
    requires i < |chains|
    ensures NonEmpty(chains) ==> NonEmpty(r)
  {
    chains[..i] + chains[i + 1..]
  }

  /** `order` is an interleaving of the chains: every entry once, each chain in its own order. */
  ghost predicate Merge<T>(chains: seq<seq<T>>, order: seq<T>)
    decreases |order|
  {
    if order == [] then chains == []
    else exists i :: 0 <= i < |chains| && MergeFrom(chains, order, i)
  }

  ghost predicate MergeFrom<T>(chains: seq<seq<T>>, order: seq<T>, i: nat)
    requires order != []
    decreases |order|, 0
  {
    i < |chains| && chains[i] != [] && chains[i][0] == order[0] && Merge(Advance(chains, i), order[1..])
  }

  lemma FlattenAppend<T>(a: seq<seq<T>>, b: seq<seq<T>>)
    ensures Flatten(a + b) == Flatten(a) + Flatten(b)
  {
    if a == [] {
      assert a + b == b;
    } else {
      assert (a + b)[1..] == a[1..] + b;
      FlattenAppend(a[1..], b);
    }
  }

  lemma FlattenSplit<T>(chains: seq<seq<T>>, i: nat)
    requires i < |chains|
    ensures Flatten(chains) == Flatten(chains[..i]) + chains[i] + Flatten(chains[i + 1..])
  {
    assert chains == chains[..i] + chains[i..];
    FlattenAppend(chains[..i], chains[i..]);
  }

  lemma FlattenAdvance<T>(chains: seq<seq<T>>, i: nat)
    requires i < |chains| && chains[i] != []
    ensures Flatten(Advance(chains, i)) == Flatten(chains[..i]) + chains[i][1..] + Flatten(chains[i + 1..])
  {
    var mid := if |chains[i]| == 1 then [] else [chains[i][1..]];
    assert Flatten(mid) == chains[i][1..];
    FlattenAppend(chains[..i] + mid, chains[i + 1..]);
    FlattenAppend(chains[..i], mid);
  }

  lemma FlattenNonEmpty<T>(chains: seq<seq<T>>)
    requires NonEmpty(chains)
    ensures chains != [] ==> Flatten(chains) != []
  {
    if chains != [] {
      assert chains[0] != [];
    }
  }

  /** Interleaving neither loses nor repeats an entry. */
  lemma {:induction false} MergeKeepsAll<T>(chains: seq<seq<T>>, order: seq<T>)
    requires Merge(chains, order)
    ensures multiset(order) == multiset(Flatten(chains))
    decreases |order|
  {
    if order != [] {
      var i :| 0 <= i < |chains| && MergeFrom(chains, order, i);
      MergeKeepsAll(Advance(chains, i), order[1..]);
      FlattenSplit(chains, i);
      FlattenAdvance(chains, i);
      assert order == [order[0]] + order[1..];
      assert chains[i] == [order[0]] + chains[i][1..];
    }
  }

  /** A single chain admits one order only: its own. */
  lemma {:induction false} MergeOfOne<T>(chain: seq<T>, order: seq<T>)
    requires chain != [] && Merge([chain], order)
    ensures order == chain
    decreases |order|
  {
    var i :| 0 <= i < |[chain]| && MergeFrom([chain], order, i);
    if |chain| == 1 {
      assert Advance([chain], i) == [];
      var rest := order[1..];
      assert Merge<T>([], rest);
      assert rest == [];
    } else {
      assert Advance([chain], i) == [chain[1..]];
      MergeOfOne(chain[1..], order[1..]);
    }
  }

  /** Running the chains one behind the other is one of the orders. */
  lemma {:induction false} MergeInOrder<T>(chains: seq<seq<T>>)
    requires NonEmpty(chains)
    ensures Merge(chains, Flatten(chains))
    decreases |Flatten(chains)|
  {
    if chains != [] {
      var order := Flatten(chains);
      FlattenAdvance(chains, 0);
      assert order[1..] == Flatten(Advance(chains, 0)) by {
        assert chains[..0] == [];
      }
      MergeInOrder(Advance(chains, 0));
      assert MergeFrom(chains, order, 0);
    }
  }

  /** A whole chain may come first. */
  lemma {:induction false} MergeChainFirst<T>(chains: seq<seq<T>>, i: nat, order: seq<T>)
    requires i < |chains| && chains[i] != [] && Merge(Without(chains, i), order)
    ensures Merge(chains, chains[i] + order)
    decreases |chains[i]|
  {
    var next := Advance(chains, i);
    var tail := (chains[i] + order)[1..];
    if |chains[i]| == 1 {
      assert next == Without(chains, i);
      assert tail == order;
    } else {
      assert next[i] == chains[i][1..];
      assert Without(next, i) == Without(chains, i);
      MergeChainFirst(next, i, order);
      assert tail == next[i] + order;
    }
    assert MergeFrom(chains, chains[i] + order, i);
  }

  lemma AllLinkedIsOneChain<T>(items: seq<T>, link: seq<bool>)
    requires |items| == |link| > 0
    requires forall i :: 0 <= i < |link| - 1 ==> link[i]
    ensures Chains(items, link) == [items]
  {
    if |items| > 1 {
      AllLinkedIsOneChain(items[1..], link[1..]);
      assert [items[0]] + items[1..] == items;
    } else {
      assert items == [items[0]];
    }
  }

  lemma GapMakesTwoChains<T>(items: seq<T>, link: seq<bool>, i: nat)
    requires |items| == |link| && i < |link| - 1 && !link[i]
    ensures |Chains(items, link)| >= 2
  {
    if i > 0 {
      GapMakesTwoChains(items[1..], link[1..], i - 1);
    }
  }

  /** Linked throughout, a queue runs in its own order. */
  lemma LinkedOrder<T>(items: seq<T>, link: seq<bool>, order: seq<T>)
    requires |items| == |link| && Merge(Chains(items, link), order)
    requires forall i :: 0 <= i < |link| - 1 ==> link[i]
    ensures |Chains(items, link)| <= 1
    ensures order == items
  {
    if items == [] {
      MergeKeepsAll(Chains(items, link), order);
      assert |multiset(order)| == 0;
    } else {
      AllLinkedIsOneChain(items, link);
      MergeOfOne(items, order);
    }
  }

  // ---------- The kernel ----------

  /** Results that cut the rest of a chain off. */
  predicate Severs(op: Op, res: int) {
    res < 0 || ((op.Read? || op.Write?) && res < op.n)
  }

  function Cancelled(ops: seq<Op>): (r: seq<Cqe>)
    ensures |r| == |ops| && Ops(r) == ops
    ensures forall i :: 0 <= i < |ops| ==> r[i] == Cqe(ops[i], -ECANCELED)
  {
    seq(|ops|, i requires 0 <= i < |ops| => Cqe(ops[i], -ECANCELED))
  }

  function KernelStep(r: Ring, c: Choice): Ring {
    if c.pick >= |r.flying| || r.flying[c.pick] == [] then r
    else
      var chain := r.flying[c.pick];
      var res := Result(chain[0], c.fault, r.world);
      var w := Transfer(chain[0], res, r.world);
      if Severs(chain[0], res) then
        r.(flying := Without(r.flying, c.pick), cq := r.cq + [Cqe(chain[0], res)] + Cancelled(chain[1..]), world := w)
      else
        r.(flying := Advance(r.flying, c.pick), cq := r.cq + [Cqe(chain[0], res)], world := w)
  }

  function Runs(r: Ring, sched: seq<Choice>): Ring
    decreases |sched|
  {
    if sched == [] then r else Runs(KernelStep(r, sched[0]), sched[1..])
  }

  ghost predicate Wf(r: Ring) {
    NonEmpty(r.flying)
  }

  /** Requests handed to the kernel whose completion has not been taken off the ring. */
  function Outstanding(r: Ring): nat {
    |Flatten(r.flying)| + |r.cq|
  }

  lemma CancelledReplay(ops: seq<Op>, w: World)
    ensures Replay(Cancelled(ops), w) == w
  {
    if ops != [] {
      assert Cancelled(ops)[1..] == Cancelled(ops[1..]);
      CancelledReplay(ops[1..], w);
    }
  }

  lemma StepConserves(r: Ring, c: Choice)
    requires Wf(r)
    ensures Wf(KernelStep(r, c))
    ensures Outstanding(KernelStep(r, c)) == Outstanding(r)
    ensures r.cq <= KernelStep(r, c).cq
    ensures KernelStep(r, c).sq == r.sq && KernelStep(r, c).depth == r.depth
  {
    if c.pick < |r.flying| {
      FlattenSplit(r.flying, c.pick);
      FlattenAdvance(r.flying, c.pick);
      FlattenAppend(r.flying[..c.pick], r.flying[c.pick + 1..]);
    }
  }

  /** Whatever the kernel chooses, no request appears or disappears. */
  lemma {:induction false} RunsConserve(r: Ring, sched: seq<Choice>)
    requires Wf(r)
    ensures Wf(Runs(r, sched))
    ensures Outstanding(Runs(r, sched)) == Outstanding(r)
    ensures r.cq <= Runs(r, sched).cq
    ensures Runs(r, sched).sq == r.sq && Runs(r, sched).depth == r.depth
    decreases |sched|
  {
    hide KernelStep;
    if sched != [] {
      StepConserves(r, sched[0]);
      RunsConserve(KernelStep(r, sched[0]), sched[1..]);
    }
  }

  lemma RunsAppend(r: Ring, a: seq<Choice>, b: seq<Choice>)
    ensures Runs(r, a + b) == Runs(Runs(r, a), b)
    decreases |a|
  {
    if a == [] {
      assert a + b == b;
    } else {
      assert (a + b)[1..] == a[1..] + b;
      RunsAppend(KernelStep(r, a[0]), a[1..], b);
    }
  }

  lemma StepDrop(r: Ring, k: nat, c: Choice)
    requires k <= |r.cq|
    ensures r.cq <= KernelStep(r, c).cq
    ensures KernelStep(r.(cq := r.cq[k..]), c) == KernelStep(r, c).(cq := KernelStep(r, c).cq[k..])
  {
  }

  /** Taking completions off the ring does not disturb the kernel. */
  lemma RunsDrop(r: Ring, k: nat, sched: seq<Choice>)
    requires Wf(r) && k <= |r.cq|
    ensures r.cq <= Runs(r, sched).cq
    ensures Runs(r.(cq := r.cq[k..]), sched) == Runs(r, sched).(cq := Runs(r, sched).cq[k..])
    decreases |sched|
  {
    hide KernelStep;
    RunsConserve(r, sched);
    if sched != [] {
      StepConserves(r, sched[0]);
      StepDrop(r, k, sched[0]);
      RunsDrop(KernelStep(r, sched[0]), k, sched[1..]);
    }
  }

  /** The completions a kernel step posts. */
  function Posted(r: Ring, c: Choice): seq<Cqe> {
    if c.pick >= |r.flying| || r.flying[c.pick] == [] then []
    else
      var chain := r.flying[c.pick];
      var res := Result(chain[0], c.fault, r.world);
      [Cqe(chain[0], res)] + (if Severs(chain[0], res) then Cancelled(chain[1..]) else [])
  }

  function PostedBy(r: Ring, sched: seq<Choice>): seq<Cqe>
    decreases |sched|
  {
    if sched == [] then [] else Posted(r, sched[0]) + PostedBy(KernelStep(r, sched[0]), sched[1..])
  }

  lemma StepPost(r: Ring, c: Choice)
    ensures KernelStep(r, c).cq == r.cq + Posted(r, c)
  {
  }

  lemma RunsPost(r: Ring, sched: seq<Choice>)
    ensures Runs(r, sched).cq == r.cq + PostedBy(r, sched)
    decreases |sched|
  {
    hide KernelStep, Posted;
    if sched != [] {
      StepPost(r, sched[0]);
      RunsPost(KernelStep(r, sched[0]), sched[1..]);
    }
  }

  lemma StepReplay(r: Ring, c: Choice)
    ensures KernelStep(r, c).world == Replay(Posted(r, c), r.world)
  {
    if c.pick < |r.flying| && r.flying[c.pick] != [] {
      var chain := r.flying[c.pick];
      var res := Result(chain[0], c.fault, r.world);
      var head := [Cqe(chain[0], res)];
      assert head[1..] == [];
      ReplayAppend(head, Cancelled(chain[1..]), r.world);
      CancelledReplay(chain[1..], Transfer(chain[0], res, r.world));
    }
  }

  /** For every kernel run, with any faults, the world is the replay of the completions in the
      order they were posted. */
  lemma {:induction false} RunsReplay(r: Ring, sched: seq<Choice>)
    ensures Runs(r, sched).world == Replay(PostedBy(r, sched), r.world)
    decreases |sched|
  {
    hide KernelStep, Posted;
    if sched != [] {
      StepReplay(r, sched[0]);
      RunsReplay(KernelStep(r, sched[0]), sched[1..]);
      ReplayAppend(Posted(r, sched[0]), PostedBy(KernelStep(r, sched[0]), sched[1..]), r.world);
    }
  }

  lemma AllFullAppend(a: seq<Cqe>, b: seq<Cqe>)
    ensures AllFull(a + b) <==> AllFull(a) && AllFull(b)
  {
    assert forall i :: 0 <= i < |a| ==> (a + b)[i] == a[i];
    assert forall i :: 0 <= i < |b| ==> (a + b)[|a| + i] == b[i];
  }

  lemma StepPlain(r: Ring, c: Choice)
    ensures AllFull(Posted(r, c)) ==> KernelStep(r, c).world == DoAll(Ops(Posted(r, c)), r.world)
  {
    var posted := Posted(r, c);
    if posted != [] && AllFull(posted) {
      assert Full(posted[0]);
      FullMeansPlain(posted[0].op, c.fault, r.world);
      assert Ops(posted) == [posted[0].op];
      assert Ops(posted)[1..] == [];
    }
  }

  /** If every completion is full, the world is that of the plain calls in that order. */
  lemma {:induction false} RunsPlain(r: Ring, sched: seq<Choice>)
    ensures AllFull(PostedBy(r, sched)) ==> Runs(r, sched).world == DoAll(Ops(PostedBy(r, sched)), r.world)
    decreases |sched|
  {
    hide KernelStep, Posted, AllFull;
    if sched != [] {
      var next := KernelStep(r, sched[0]);
      var first, rest := Posted(r, sched[0]), PostedBy(next, sched[1..]);
      AllFullAppend(first, rest);
      StepPlain(r, sched[0]);
      RunsPlain(next, sched[1..]);
      DoAllAppend(Ops(first), Ops(rest), r.world);
      assert Ops(first + rest) == Ops(first) + Ops(rest);
    }
  }

  lemma StepMerges(r: Ring, c: Choice, order: seq<Op>)
    requires Wf(r) && Merge(KernelStep(r, c).flying, order)
    ensures Merge(r.flying, Ops(Posted(r, c)) + order)
  {
    var posted := Posted(r, c);
    var all := Ops(posted) + order;
    if c.pick >= |r.flying| {
      assert all == order;
    } else {
      var chain := r.flying[c.pick];
      if Severs(chain[0], Result(chain[0], c.fault, r.world)) {
        assert Ops(posted) == chain;
        MergeChainFirst(r.flying, c.pick, order);
      } else {
        assert all[1..] == order && all[0] == chain[0];
        assert MergeFrom(r.flying, all, c.pick);
      }
    }
  }

  /** Whatever order the rest will take, the completions so far extend it to an order of the
      original chains. */
  lemma {:induction false} RunsMerge(r: Ring, sched: seq<Choice>, order: seq<Op>)
    requires Wf(r) && Merge(Runs(r, sched).flying, order)
    ensures Merge(r.flying, Ops(PostedBy(r, sched)) + order)
    decreases |sched|
  {
    hide KernelStep, Posted;
    var posted := PostedBy(r, sched);
    if sched == [] {
      assert Ops(posted) + order == order;
    } else {
      var next := KernelStep(r, sched[0]);
      var rest := PostedBy(next, sched[1..]);
      StepConserves(r, sched[0]);
      RunsMerge(next, sched[1..], order);
      StepMerges(r, sched[0], Ops(rest) + order);
      assert Ops(posted) + order == Ops(Posted(r, sched[0])) + (Ops(rest) + order);
    }
  }

  /** The completions of the plain calls made in this order. */
  function Plain(order: seq<Op>, w: World): (r: seq<Cqe>)
    ensures |r| == |order| && forall i :: 0 <= i < |order| ==> r[i].op == order[i]
  {
    if order == [] then [] else [Cqe(order[0], Best(order[0], w))] + Plain(order[1..], Do(order[0], w))
  }

  lemma PlainOps(order: seq<Op>, w: World)
    ensures Ops(Plain(order, w)) == order
  {
  }

  /** Run plainly in this order, no request would cut a chain. */
  predicate NeverSevers(order: seq<Op>, w: World) {
    order != [] ==> !Severs(order[0], Best(order[0], w)) && NeverSevers(order[1..], Do(order[0], w))
  }

  ghost predicate AllSingle<T>(chains: seq<seq<T>>) {
    forall i :: 0 <= i < |chains| ==> |chains[i]| == 1
  }

  /** Some schedule of the kernel completes all that `r` has in flight, in this order. */
  ghost predicate Takes(r: Ring, order: seq<Op>) {
    exists sched :: Runs(r, sched).flying == [] && Ops(PostedBy(r, sched)) == order
  }

  lemma PlainStep(r: Ring, i: nat)
    requires i < |r.flying| && r.flying[i] != []
    requires |r.flying[i]| == 1 || !Severs(r.flying[i][0], Best(r.flying[i][0], r.world))
    ensures var op := r.flying[i][0];
            && Posted(r, Choice(i, Fine)) == [Cqe(op, Best(op, r.world))]
            && KernelStep(r, Choice(i, Fine)) == r.(flying := Advance(r.flying, i), world := Do(op, r.world),
                                                    cq := r.cq + [Cqe(op, Best(op, r.world))])
  {
    assert |r.flying[i]| == 1 ==> Cancelled(r.flying[i][1..]) == [];
  }

  lemma RunsFirst(r: Ring, c: Choice, rest: seq<Choice>)
    ensures Runs(r, [c] + rest) == Runs(KernelStep(r, c), rest)
    ensures PostedBy(r, [c] + rest) == Posted(r, c) + PostedBy(KernelStep(r, c), rest)
  {
    assert ([c] + rest)[1..] == rest;
  }

  lemma AdvanceKeepsSingle<T>(chains: seq<seq<T>>, i: nat)
    requires AllSingle(chains) && i < |chains|
    ensures AllSingle(Advance(chains, i))
  {
  }

  /** The first request of an interleaving, run plainly. */
  lemma PlainFirst(r: Ring, order: seq<Op>, i: nat)
    requires order != [] && i < |r.flying| && r.flying[i] != [] && r.flying[i][0] == order[0]
    requires AllSingle(r.flying) || NeverSevers(order, r.world)
    ensures var c, op := Choice(i, Fine), order[0];
            && Posted(r, c) == [Cqe(op, Best(op, r.world))]
            && KernelStep(r, c) == r.(flying := Advance(r.flying, i), world := Do(op, r.world),
                                      cq := r.cq + [Cqe(op, Best(op, r.world))])
            && (AllSingle(Advance(r.flying, i)) || NeverSevers(order[1..], Do(op, r.world)))
  {
    hide Do, Best, KernelStep, Posted, Advance;
    PlainStep(r, i);
    if AllSingle(r.flying) {
      AdvanceKeepsSingle(r.flying, i);
    }
  }

  /** Every interleaving is the work of some schedule: with single requests always, with longer
      chains if nothing cuts them. */
  lemma {:induction false} MergeReached(r: Ring, order: seq<Op>) returns (sched: seq<Choice>)
    requires Merge(r.flying, order)
    requires AllSingle(r.flying) || NeverSevers(order, r.world)
    ensures PostedBy(r, sched) == Plain(order, r.world)
    ensures Runs(r, sched) == r.(flying := [], cq := r.cq + Plain(order, r.world), world := DoAll(order, r.world))
    ensures Takes(r, order)
    decreases |order|
  {
    hide KernelStep, Posted, Do, Best, AllSingle, NeverSevers, Advance, Takes;
    if order == [] {
      sched := [];
      assert r.cq + [] == r.cq;
    } else {
      hide Runs, PostedBy;
      var i :| 0 <= i < |r.flying| && MergeFrom(r.flying, order, i);
      PlainFirst(r, order, i);
      var c, first := Choice(i, Fine), [Cqe(order[0], Best(order[0], r.world))];
      var rest := MergeReached(KernelStep(r, c), order[1..]);
      RunsFirst(r, c, rest);
      sched := [c] + rest;
      var others := Plain(order[1..], Do(order[0], r.world));
      assert r.cq + first + others == r.cq + (first + others);
    }
    TakenBy(r, sched, order);
  }

  lemma TakenBy(r: Ring, sched: seq<Choice>, order: seq<Op>)
    requires Runs(r, sched).flying == [] && PostedBy(r, sched) == Plain(order, r.world)
    ensures Takes(r, order)
  {
    PlainOps(order, r.world);
  }

  /** The orders a schedule can produce are interleavings of the chains. */
  lemma TakesMerge(r: Ring, order: seq<Op>)
    requires Wf(r) && Takes(r, order)
    ensures Merge(r.flying, order)
  {
    var sched :| Runs(r, sched).flying == [] && Ops(PostedBy(r, sched)) == order;
    assert Merge<Op>([], []);
    RunsMerge(r, sched, []);
    assert order + [] == order;
  }

  /** What a link means.  An error, or a short read or write, cancels all that is linked behind the
      request, each with a completion of its own; a short send or recv cancels nothing. */
  lemma LinkStep(r: Ring, pick: nat, f: Fault)
    requires pick < |r.flying| && r.flying[pick] != []
    ensures var op, rest := r.flying[pick][0], r.flying[pick][1..];
            var res, r' := Result(op, f, r.world), KernelStep(r, Choice(pick, f));
            && r'.world == Transfer(op, res, r.world)
            && (res < 0 || (op.Read? && res < op.n) || (op.Write? && res < op.n) ==>
                  && r'.flying == r.flying[..pick] + r.flying[pick + 1..]
                  && r'.cq == r.cq + [Cqe(op, res)] + seq(|rest|, i requires 0 <= i < |rest| => Cqe(rest[i], -125)))
            && (res >= 0 && (op.Send? || op.Recv? || op.Fsync? || res >= op.n) ==>
                  && r'.flying == r.flying[..pick] + (if rest == [] then [] else [rest]) + r.flying[pick + 1..]
                  && r'.cq == r.cq + [Cqe(op, res)])
  {
    var rest := r.flying[pick][1..];
    assert Cancelled(rest) == seq(|rest|, i requires 0 <= i < |rest| => Cqe(rest[i], -125));
  }

  /** Behind an error, or a short read or write, everything is cancelled. */
  ghost predicate CutOff(posted: seq<Cqe>) {
    forall i, j :: 0 <= i < j < |posted| && Severs(posted[i].op, posted[i].res) ==> posted[j].res == -ECANCELED
  }

  ghost predicate AnySevers(posted: seq<Cqe>) {
    exists i :: 0 <= i < |posted| && Severs(posted[i].op, posted[i].res)
  }

  lemma NothingFlying(r: Ring, sched: seq<Choice>)
    requires r.flying == []
    ensures Runs(r, sched) == r && PostedBy(r, sched) == []
    decreases |sched|
  {
    if sched != [] {
      NothingFlying(r, sched[1..]);
    }
  }

  lemma CutOffCons(c: Cqe, rest: seq<Cqe>)
    requires !Severs(c.op, c.res) && CutOff(rest)
    ensures CutOff([c] + rest)
    ensures AnySevers([c] + rest) ==> AnySevers(rest)
  {
    var all := [c] + rest;
    assert forall i :: 0 < i < |all| ==> all[i] == rest[i - 1];
  }

  lemma {:induction false} CutOffHolds(r: Ring, sched: seq<Choice>)
    requires Wf(r) && |r.flying| <= 1
    ensures CutOff(PostedBy(r, sched))
    ensures AnySevers(PostedBy(r, sched)) ==> Runs(r, sched).flying == []
    decreases |sched|
  {
    if sched != [] {
      var next, first := KernelStep(r, sched[0]), Posted(r, sched[0]);
      StepConserves(r, sched[0]);
      if sched[0].pick >= |r.flying| {
        CutOffHolds(r, sched[1..]);
        assert PostedBy(r, sched) == PostedBy(r, sched[1..]);
      } else if Severs(first[0].op, first[0].res) {
        NothingFlying(next, sched[1..]);
        assert PostedBy(r, sched) == first;
      } else {
        CutOffHolds(next, sched[1..]);
        CutOffCons(first[0], PostedBy(next, sched[1..]));
        assert first == [first[0]];
      }
    }
  }

  /** A single chain in flight: behind an error, or a short read or write, every completion is a
      cancellation, and nothing stays in flight. */
  lemma OneChainCutOff(r: Ring, sched: seq<Choice>, i: nat)
    requires Wf(r) && |r.flying| <= 1 && i < |PostedBy(r, sched)|
    requires var c := PostedBy(r, sched)[i];
             c.res < 0 || (c.op.Read? && c.res < c.op.n) || (c.op.Write? && c.res < c.op.n)
    ensures forall j :: i < j < |PostedBy(r, sched)| ==> PostedBy(r, sched)[j].res == -125
    ensures Runs(r, sched).flying == []
  {
    CutOffHolds(r, sched);
    assert Severs(PostedBy(r, sched)[i].op, PostedBy(r, sched)[i].res);
  }

  /** The number of requests of a chain that ran: up to and with the first severing one. */
  function Executed(posted: seq<Cqe>): (k: nat)
    ensures k <= |posted|
  {
    if posted == [] then 0
    else if Severs(posted[0].op, posted[0].res) then 1
    else 1 + Executed(posted[1..])
  }

  lemma CancelledChangeNothing(posted: seq<Cqe>, w: World)
    requires forall i :: 0 <= i < |posted| ==> posted[i].res == -ECANCELED
    ensures Replay(posted, w) == w
  {
    if posted != [] {
      CancelledChangeNothing(posted[1..], w);
    }
  }

  lemma {:induction false} ExecutedShape(posted: seq<Cqe>)
    ensures var k := Executed(posted);
            && (forall i :: 0 <= i < k - 1 ==> !Severs(posted[i].op, posted[i].res))
            && (k < |posted| ==> k > 0 && Severs(posted[k - 1].op, posted[k - 1].res))
    decreases |posted|
  {
    if posted != [] && !Severs(posted[0].op, posted[0].res) {
      var rest := posted[1..];
      ExecutedShape(rest);
      assert forall i :: 0 <= i < |rest| ==> posted[i + 1] == rest[i];
    }
  }

  /** A chain runs as a prefix in queue order, up to and with the first request that fails or
      falls short; all behind it is cancelled and changes nothing. */
  lemma ExecutedPrefix(posted: seq<Cqe>, w: World)
    requires CutOff(posted)
    ensures var k := Executed(posted);
            && (forall i :: 0 <= i < k - 1 ==>
                  && posted[i].res >= 0
                  && (posted[i].op.Read? || posted[i].op.Write? ==> posted[i].res >= posted[i].op.n))
            && (k < |posted| ==>
                  && k > 0
                  && var cut := posted[k - 1];
                     cut.res < 0 || ((cut.op.Read? || cut.op.Write?) && cut.res < cut.op.n))
            && (forall i :: k <= i < |posted| ==> posted[i].res == -125)
            && Replay(posted, w) == Replay(posted[..k], w)
  {
    var k := Executed(posted);
    ExecutedShape(posted);
    assert posted == posted[..k] + posted[k..];
    ReplayAppend(posted[..k], posted[k..], w);
    CancelledChangeNothing(posted[k..], Replay(posted[..k], w));
  }

  // ---------- The client's calls ----------

  function Links(sq: seq<Sqe>): (r: seq<bool>)
    ensures |r| == |sq| && forall i :: 0 <= i < |sq| ==> r[i] == sq[i].link
  {
    seq(|sq|, i requires 0 <= i < |sq| => sq[i].link)
  }

  function Queued(sq: seq<Sqe>): (r: seq<Op>)
    ensures |r| == |sq| && forall i :: 0 <= i < |sq| ==> r[i] == sq[i].op
  {
    seq(|sq|, i requires 0 <= i < |sq| => sq[i].op)
  }

  /** A submission queue of requests none of which is linked. */
  function Unlinked(ops: seq<Op>): (r: seq<Sqe>)
    ensures ops == [] ==> r == []
    ensures |r| == |ops| && Queued(r) == ops
    ensures forall i :: 0 <= i < |ops| ==> r[i] == Sqe(ops[i], false)
  {
    seq(|ops|, i requires 0 <= i < |ops| => Sqe(ops[i], false))
  }

  function NewRing(depth: nat, w: World): Ring {
    Ring(depth, [], [], [], w)
  }

  predicate HasRoom(r: Ring) {
    |r.sq| < r.depth
  }

  function Enqueue(r: Ring, op: Op): Ring
    requires HasRoom(r)
  {
    r.(sq := r.sq + [Sqe(op, false)])
  }

  /** Flags the newest entry. */
  function SetLink(r: Ring): Ring
    requires r.sq != []
  {
    var last := |r.sq| - 1;
    r.(sq := r.sq[..last] + [r.sq[last].(link := true)])
  }

  function Submit(r: Ring): Ring {
    r.(sq := [], flying := r.flying + Chains(Queued(r.sq), Links(r.sq)))
  }

  predicate Idle(r: Ring) {
    r.sq == [] && r.flying == [] && r.cq == []
  }

  lemma SubmitCounts(r: Ring)
    requires Wf(r)
    ensures Wf(Submit(r))
    ensures Outstanding(Submit(r)) == Outstanding(r) + |r.sq|
  {
    FlattenAppend(r.flying, Chains(Queued(r.sq), Links(r.sq)));
  }

  /** Blocks until a completion is there and takes it.  `sched` is what the kernel did
      meanwhile; callers know nothing about it.  Calling this with nothing outstanding
      would block for ever. */
  method WaitCqe(r: Ring) returns (r': Ring, c: Cqe, ghost sched: seq<Choice>)
    requires Wf(r) && Outstanding(r) > 0
    ensures Runs(r, sched).cq != []
    ensures c == Runs(r, sched).cq[0]
    ensures r' == Runs(r, sched).(cq := Runs(r, sched).cq[1..])
  {
    r', sched := r, [];
    if r.cq == [] {
      var pick: nat :| pick < |r.flying|;
      var fault: Fault := *;
      r', sched := KernelStep(r, Choice(pick, fault)), [Choice(pick, fault)];
      assert sched[1..] == [];
    }
    c := r'.cq[0];
    r' := r'.(cq := r'.cq[1..]);
  }

  /** Some schedule posts these completions, leaves nothing in flight and ends in this world. */
  ghost predicate ByRun(r: Ring, posted: seq<Cqe>, w: World) {
    exists sched :: PostedBy(r, sched) == posted && Runs(r, sched).flying == [] && Runs(r, sched).world == w
  }

  /** The completions `posted` account for all that `r` had in flight. */
  ghost predicate Settled(r: Ring, posted: seq<Cqe>, w: World) {
    && ByRun(r, posted, w)
    && Merge(r.flying, Ops(posted))
    && w == Replay(posted, r.world)
    && (AllFull(posted) ==> w == DoAll(Ops(posted), r.world))
  }

  lemma DrainedIsSettled(r: Ring, sched: seq<Choice>)
    requires Wf(r) && |Runs(r, sched).cq| >= Outstanding(r)
    ensures var posted := PostedBy(r, sched);
            && Runs(r, sched) == r.(flying := [], cq := r.cq + posted, world := Runs(r, sched).world)
            && |r.cq| + |posted| == Outstanding(r)
            && Settled(r, posted, Runs(r, sched).world)
  {
    RunsConserve(r, sched);
    RunsPost(r, sched);
    RunsReplay(r, sched);
    RunsPlain(r, sched);
    FlattenNonEmpty(Runs(r, sched).flying);
    assert Merge<Op>([], []);
    RunsMerge(r, sched, []);
    assert Ops(PostedBy(r, sched)) + [] == Ops(PostedBy(r, sched));
  }

  /** Submit, then wait `count` times, taking each completion off the ring. */
  method SubmitAndReap(r: Ring, count: nat) returns (r': Ring, ghost posted: seq<Cqe>)
    requires Wf(r) && Outstanding(r) + |r.sq| == count
    ensures r' == NewRing(r.depth, r'.world)
    ensures Settled(Submit(r), posted, r'.world)
  {
    ghost var start := Submit(r);
    SubmitCounts(r);
    r' := Submit(r);
    ghost var sched: seq<Choice> := [];
    for i := 0 to count
      invariant Wf(start) && Outstanding(start) == count
      invariant i <= |Runs(start, sched).cq|
      invariant r' == Runs(start, sched).(cq := Runs(start, sched).cq[i..])
      invariant r'.sq == [] && r'.depth == r.depth
    {
      RunsConserve(start, sched);
      ghost var more;
      ghost var reached := Runs(start, sched);
      var c;
      RunsCount(reached, i);
      r', c, more := WaitCqe(r');
      RunsDrop(reached, i, more);
      RunsAppend(start, sched, more);
      RunsConserve(reached, more);
      sched := sched + more;
    }
    DrainedIsSettled(start, sched);
    posted := PostedBy(start, sched);
  }

  lemma RunsCount(r: Ring, k: nat)
    requires Wf(r) && k <= |r.cq|
    ensures Wf(r.(cq := r.cq[k..])) && Outstanding(r.(cq := r.cq[k..])) == Outstanding(r) - k
  {
  }

  /** Submit and block until `want` completions are ready. */
  method SubmitAndWait(r: Ring, want: nat) returns (r': Ring, ghost sched: seq<Choice>)
    requires Wf(r) && Outstanding(r) + |r.sq| >= want
    ensures r' == Runs(Submit(r), sched) && |r'.cq| >= want
  {
    ghost var start := Submit(r);
    SubmitCounts(r);
    r', sched := Submit(r), [];
    while |r'.cq| < want
      invariant Wf(start) && r' == Runs(start, sched)
      decreases want - |r'.cq|
    {
      RunsConserve(start, sched);
      var pick: nat :| pick < |r'.flying|;
      var fault: Fault := *;
      var c := Choice(pick, fault);
      RunsAppend(start, sched, [c]);
      assert Runs(r', [c]) == KernelStep(r', c) by { assert [c][1..] == []; }
      r', sched := KernelStep(r', c), sched + [c];
    }
  }

  /** Take a completion if one is ready. */
  function Peek(r: Ring): (Ring, Cqe)
    requires r.cq != []
  {
    (r.(cq := r.cq[1..]), r.cq[0])
  }

  /** Submit, block for all, then peek `count` times.  Every peek finds a completion. */
  method SubmitAndPeek(r: Ring, count: nat) returns (r': Ring, ghost posted: seq<Cqe>)
    requires Wf(r) && Outstanding(r) + |r.sq| == count
    ensures r' == NewRing(r.depth, r'.world)
    ensures Settled(Submit(r), posted, r'.world)
  {
    ghost var sched;
    SubmitCounts(r);
    r', sched := SubmitAndWait(r, count);
    DrainedIsSettled(Submit(r), sched);
    posted := PostedBy(Submit(r), sched);
    ghost var drained := r';
    for i := 0 to count
      invariant r' == drained.(cq := drained.cq[i..])
    {
      var (rest, _) := Peek(r');
      r' := rest;
    }
  }

  /** A lone request either has not run, or has run once with some fault. */
  lemma {:induction false} LoneRequest(r: Ring, op: Op, sched: seq<Choice>) returns (f: Fault)
    requires r.flying == [[op]]
    ensures var res := Result(op, f, r.world);
            || Runs(r, sched) == r
            || Runs(r, sched) == r.(flying := [], cq := r.cq + [Cqe(op, res)], world := Transfer(op, res, r.world))
    decreases |sched|
  {
    f := Fine;
    if sched != [] {
      if sched[0].pick > 0 {
        f := LoneRequest(r, op, sched[1..]);
      } else {
        f := sched[0].fault;
        NothingFlying(KernelStep(r, sched[0]), sched[1..]);
      }
    }
  }

  /** Submit the one queued request and wait for it: exactly one is outstanding. */
  method SubmitAndWaitOne(r: Ring) returns (r': Ring, c: Cqe, ghost f: Fault)
    requires |r.sq| == 1 && r.flying == [] && r.cq == []
    ensures c == Cqe(r.sq[0].op, Result(r.sq[0].op, f, r.world))
    ensures r' == NewRing(r.depth, Transfer(c.op, c.res, r.world))
  {
    ghost var sched;
    var op := r.sq[0].op;
    assert Chains(Queued(r.sq), Links(r.sq)) == [[op]] by {
      AllLinkedIsOneChain(Queued(r.sq), Links(r.sq));
      assert Queued(r.sq) == [op];
    }
    SubmitCounts(r);
    r', c, sched := WaitCqe(Submit(r));
    f := LoneRequest(Submit(r), op, sched);
  }
}
