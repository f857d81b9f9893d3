/** When the answer that the mixed client receives is what it saves
    (iouring_hotpatch/uring_client copy.c). */
module MixedSaving {
  import opened Basics
  import opened World
  import opened Uring
  import opened UnlinkedBatches
  import opened MixedClient

  /** recv.txt is open and the buffer mapped. */
  ghost predicate CanSave(p: Phase, buf: int, w: World) {
    && p.Receiving? && p.recvFd in w.files && p.sock in w.inbox
    && 0 <= buf && buf + 4 <= |w.mem|
  }

  /** The kernel runs all that is in flight before the wait returns, in queue order, and every
      request as the plain call would run; so it does when a batch is flushed. */
  ghost predicate InOrder(x: Round) {
    && Runs(Submit(x.submitted), x.sched).flying == []
    && PostedBy(Submit(x.submitted), x.sched) == Plain(Flatten(Submit(x.submitted).flying), x.submitted.world)
    && x.flushed == Plain(Ops(x.flushed), Runs(Submit(x.submitted), x.sched).world)
  }

  lemma {:induction false} PlainReplays(order: seq<Op>, w: World)
    ensures Replay(Plain(order, w), w) == DoAll(order, w)
  {
    hide Best, Transfer;
    if order != [] {
      PlainReplays(order[1..], Do(order[0], w));
    }
  }

  /** What such a pass does from a loop head with nothing in flight. */
  lemma {:induction false} OrderlyPass(p: Phase, buf: int, x: Round)
    requires p.Receiving? && RoundOk(p, buf, x) && InOrder(x) && x.head.flying == []
    requires forall i :: 0 <= i < |x.head.sq| ==> !x.head.sq[i].link
    ensures var ops := Queued(x.head.sq) + [Recv(p.sock, buf, 4)];
            && AfterWait(x) == NewRing(x.head.depth, DoAll(ops, x.head.world)).(cq := AfterWait(x).cq)
            && [x.taken] + AfterWait(x).cq == x.head.cq + Plain(ops, x.head.world)
  {
    hide Plain, DoAll, Best, Do, Runs, PostedBy;
    var r, recv := Submit(x.submitted), Recv(p.sock, buf, 4);
    var ops := Queued(x.submitted.sq);
    assert ops == Queued(x.head.sq) + [recv];
    UnlinkedChains(ops, Links(x.submitted.sq));
    QueueSubmits(0, ops, x.head.world);
    assert r.flying == Singles(ops);
    RunsPost(r, x.sched);
    RunsReplay(r, x.sched);
    PlainReplays(ops, x.head.world);
    RunsConserve(r, x.sched);
  }

  lemma {:induction false} OneCall(op: Op, w: World)
    ensures DoAll([op], w) == Do(op, w) && Plain([op], w) == [Cqe(op, Best(op, w))]
  {
    hide Best, Do;
    assert [op][1..] == [];
  }

  lemma {:induction false} TwoCalls(write: Op, recv: Op, w: World)
    ensures DoAll([write, recv], w) == Do(recv, Do(write, w))
    ensures Plain([write, recv], w) == [Cqe(write, Best(write, w)), Cqe(recv, Best(recv, Do(write, w)))]
  {
    hide Best, Do;
    assert [write, recv][1..] == [recv] && [recv][1..] == [];
    assert DoAll([write, recv], w) == DoAll([recv], Do(write, w));
    OneCall(recv, Do(write, w));
  }

  // ---------- As long as the stream fills the buffer ----------

  /** After `n` chunks of stream `s`: all but the newest are in recv.txt, and the newest is in the
      buffer with its write queued, unless a flush has just written it. */
  ghost predicate PrefixHead(p: Phase, buf: int, s: seq<Byte>, n: nat, offset: nat, batchCount: nat, head: Ring) {
    && CanSave(p, buf, head.world) && head.flying == []
    && offset == 4 * n <= |s| && batchCount == n % 512
    && head.world.inbox[p.sock] == s[offset..]
    && |head.cq| == Max(0, batchCount - 1) && (forall i :: 0 <= i < |head.cq| ==> head.cq[i].res == 4)
    && var file := head.world.files[p.recvFd];
       if batchCount == 0 then head.sq == [] && file == s[..offset]
       else
         && head.sq == [Sqe(Write(p.recvFd, buf, 4, offset - 4), false)] && file == s[..offset - 4]
         && head.world.mem[buf..buf + 4] == s[offset - 4..offset]
  }

  lemma ChunkWritten(p: Phase, buf: int, s: seq<Byte>, offset: nat, w: World)
    requires CanSave(p, buf, w) && 4 <= offset <= |s|
    requires w.files[p.recvFd] == s[..offset - 4] && w.mem[buf..buf + 4] == s[offset - 4..offset]
    ensures var write := Write(p.recvFd, buf, 4, offset - 4);
            && Best(write, w) == 4
            && Do(write, w) == w.(files := w.files[p.recvFd := s[..offset]])
  {
    assert s[..offset - 4] + s[offset - 4..offset] == s[..offset];
    assert Splice(s[..offset - 4], offset - 4, s[offset - 4..offset]) == s[..offset];
  }

  lemma ChunkReceived(p: Phase, buf: int, s: seq<Byte>, offset: nat, w: World)
    requires CanSave(p, buf, w) && offset <= |s| && w.inbox[p.sock] == s[offset..]
    ensures var recv, w' := Recv(p.sock, buf, 4), Do(Recv(p.sock, buf, 4), w);
            && Best(recv, w) == Min(4, |s| - offset)
            && CanSave(p, buf, w') && w'.files == w.files
            && (offset + 4 <= |s| ==>
                  w'.inbox[p.sock] == s[offset + 4..] && w'.mem[buf..buf + 4] == s[offset..offset + 4])
  {
  }

  lemma {:induction false} PrefixPass(p: Phase, buf: int, s: seq<Byte>, n: nat, x: Round)
    requires PrefixHead(p, buf, s, n, x.offset, x.batchCount, x.head) && RoundOk(p, buf, x) && InOrder(x)
    ensures AfterWait(x) == NewRing(x.head.depth, AfterWait(x).world).(cq := AfterWait(x).cq)
    ensures CanSave(p, buf, AfterWait(x).world) && AfterWait(x).world.files[p.recvFd] == s[..x.offset]
    ensures x.taken.res == if x.batchCount > 0 then 4 else Min(4, |s| - x.offset)
    ensures x.offset + 4 <= |s| ==>
              && AfterWait(x).world.inbox[p.sock] == s[x.offset + 4..]
              && AfterWait(x).world.mem[buf..buf + 4] == s[x.offset..x.offset + 4]
              && |AfterWait(x).cq| == x.batchCount
              && forall i :: 0 <= i < |AfterWait(x).cq| ==> AfterWait(x).cq[i].res == 4
  {
    hide InOrder, Best, Do, DoAll, Plain, Runs, Submit;
    OrderlyPass(p, buf, x);
    var recv, w := Recv(p.sock, buf, 4), x.head.world;
    if x.batchCount == 0 {
      OneCall(recv, w);
      assert Queued(x.head.sq) + [recv] == [recv];
      ChunkReceived(p, buf, s, x.offset, w);
    } else {
      var write := Write(p.recvFd, buf, 4, x.offset - 4);
      assert Queued(x.head.sq) + [recv] == [write, recv];
      TwoCalls(write, recv, w);
      ChunkWritten(p, buf, s, x.offset, w);
      ChunkReceived(p, buf, s, x.offset, Do(write, w));
    }
    var posted := Plain(Queued(x.head.sq) + [recv], w);
    assert x.taken == (x.head.cq + posted)[0] && AfterWait(x).cq == (x.head.cq + posted)[1..];
    assert x.offset + 4 <= |s| ==> forall i :: 0 <= i < |posted| ==> posted[i].res == 4;
  }

  /** A flush of one write writes it. */
  lemma {:induction false} FlushOne(full: Ring, op: Op, flushed: seq<Cqe>, w: World)
    requires full.sq == [Sqe(op, false)] && full.flying == []
    requires Settled(Submit(full), flushed, w) && flushed == Plain(Ops(flushed), full.world)
    ensures w == Do(op, full.world)
  {
    hide Best, Do;
    assert Queued(full.sq) == [op];
    AllLinkedIsOneChain([op], Links(full.sq));
    assert Submit(full).flying == [[op]];
    MergeOfOne([op], Ops(flushed));
    PlainReplays([op], full.world);
    OneCall(op, full.world);
  }

  lemma {:induction false} PrefixNext(p: Phase, buf: int, s: seq<Byte>, n: nat, x: Round, offset: nat, batchCount: nat,
                                      head: Ring)
    requires PrefixHead(p, buf, s, n, x.offset, x.batchCount, x.head) && InOrder(x)
    requires Follows(p, buf, x, offset, batchCount, head) && 4 * n + 4 <= |s|
    ensures PrefixHead(p, buf, s, n + 1, offset, batchCount, head)
  {
    hide InOrder, Best, Do, Runs, Submit, Settled;
    PrefixPass(p, buf, s, n, x);
    var full := Replied(p, buf, x);
    if x.batchCount + 1 == BATCH {
      var write := Write(p.recvFd, buf, 4, x.offset);
      assert x.flushed == Plain(Ops(x.flushed), full.world) by { FlushedPlain(x); }
      FlushOne(full, write, x.flushed, head.world);
      ChunkWritten(p, buf, s, offset, full.world);
    }
  }

  lemma FlushedPlain(x: Round)
    requires InOrder(x)
    ensures x.flushed == Plain(Ops(x.flushed), Runs(Submit(x.submitted), x.sched).world)
  {
  }

  /** A loop cut short before its last round. */
  lemma {:induction false} LoopedLess(p: Phase, buf: int, start: Ring, rounds: seq<Round>, offset: nat, batchCount: nat,
                                      head: Ring)
    requires Looped(p, buf, start, rounds, offset, batchCount, head) && rounds != []
    ensures var x := rounds[|rounds| - 1];
            && Looped(p, buf, start, rounds[..|rounds| - 1], x.offset, x.batchCount, x.head)
            && Follows(p, buf, x, offset, batchCount, head)
  {
    hide Follows;
  }

  /** As long as chunks fill the buffer, what was received is what is in recv.txt and the buffer. */
  lemma {:induction false} PrefixHolds(p: Phase, buf: int, s: seq<Byte>, start: Ring, rounds: seq<Round>, offset: nat,
                                       batchCount: nat, head: Ring)
    requires Looped(p, buf, start, rounds, offset, batchCount, head)
    requires forall i :: 0 <= i < |rounds| ==> InOrder(rounds[i])
    requires CanSave(p, buf, start.world) && start.world.files[p.recvFd] == [] && start.world.inbox[p.sock] == s
    requires 4 * |rounds| <= |s|
    ensures PrefixHead(p, buf, s, |rounds|, offset, batchCount, head)
    decreases |rounds|
  {
    hide Follows, InOrder;
    if rounds != [] {
      var n := |rounds| - 1;
      var x := rounds[n];
      LoopedLess(p, buf, start, rounds, offset, batchCount, head);
      PrefixHolds(p, buf, s, start, rounds[..n], x.offset, x.batchCount, x.head);
      PrefixNext(p, buf, s, n, x, offset, batchCount, head);
    }
  }

  // ---------- Behind the end of the stream ----------

  /** Every positive completion makes the client queue one more write, so recv.txt reaches as far as
      the results taken add up to once the newest write is done. */
  ghost predicate OrderlyHead(p: Phase, buf: int, offset: nat, batchCount: nat, head: Ring) {
    && CanSave(p, buf, head.world) && head.flying == []
    && (forall i :: 0 <= i < |head.cq| ==> head.cq[i].res <= 4)
    && if batchCount == 0 then head.sq == [] && offset <= |head.world.files[p.recvFd]|
       else
         && |head.sq| == 1 && head.sq[0].op.Write?
         && var k := head.sq[0].op.n;
            0 < k <= 4 && k <= offset && head.sq[0] == Sqe(Write(p.recvFd, buf, k, offset - k), false)
  }

  lemma WriteReaches(p: Phase, buf: int, k: nat, offset: nat, w: World)
    requires CanSave(p, buf, w) && 0 < k <= 4 && k <= offset
    ensures var write := Write(p.recvFd, buf, k, offset - k);
            Best(write, w) == k && CanSave(p, buf, Do(write, w)) && offset <= |Do(write, w).files[p.recvFd]|
  {
  }

  lemma RecvKeeps(p: Phase, buf: int, w: World)
    requires CanSave(p, buf, w)
    ensures var recv := Recv(p.sock, buf, 4);
            Best(recv, w) <= 4 && CanSave(p, buf, Do(recv, w)) && Do(recv, w).files == w.files
  {
  }

  lemma {:induction false} LongPass(p: Phase, buf: int, x: Round)
    requires OrderlyHead(p, buf, x.offset, x.batchCount, x.head) && RoundOk(p, buf, x) && InOrder(x)
    ensures AfterWait(x) == NewRing(x.head.depth, AfterWait(x).world).(cq := AfterWait(x).cq)
    ensures CanSave(p, buf, AfterWait(x).world) && x.offset <= |AfterWait(x).world.files[p.recvFd]|
    ensures x.taken.res <= 4 && forall i :: 0 <= i < |AfterWait(x).cq| ==> AfterWait(x).cq[i].res <= 4
    ensures x.batchCount == 1 ==> x.taken.res == x.head.sq[0].op.n
  {
    hide InOrder, Best, Do, DoAll, Plain, Runs, Submit;
    OrderlyPass(p, buf, x);
    var recv, w := Recv(p.sock, buf, 4), x.head.world;
    if x.batchCount == 0 {
      OneCall(recv, w);
      assert Queued(x.head.sq) + [recv] == [recv];
      RecvKeeps(p, buf, w);
    } else {
      var write := x.head.sq[0].op;
      assert Queued(x.head.sq) + [recv] == [write, recv];
      TwoCalls(write, recv, w);
      WriteReaches(p, buf, write.n, x.offset, w);
      RecvKeeps(p, buf, Do(write, w));
    }
    var posted := Plain(Queued(x.head.sq) + [recv], w);
    assert x.taken == (x.head.cq + posted)[0] && AfterWait(x).cq == (x.head.cq + posted)[1..];
    assert forall i :: 0 <= i < |posted| ==> posted[i].res <= 4;
  }

  lemma {:induction false} LongNext(p: Phase, buf: int, x: Round, offset: nat, batchCount: nat, head: Ring)
    requires OrderlyHead(p, buf, x.offset, x.batchCount, x.head) && InOrder(x)
    requires Follows(p, buf, x, offset, batchCount, head)
    ensures OrderlyHead(p, buf, offset, batchCount, head)
  {
    hide InOrder, Best, Do, Runs, Submit, Settled;
    LongPass(p, buf, x);
    var full := Replied(p, buf, x);
    if x.batchCount + 1 == BATCH {
      assert x.flushed == Plain(Ops(x.flushed), full.world) by { FlushedPlain(x); }
      FlushOne(full, Write(p.recvFd, buf, x.taken.res, x.offset), x.flushed, head.world);
      WriteReaches(p, buf, x.taken.res, offset, full.world);
    }
  }

  lemma {:induction false} LongHolds(p: Phase, buf: int, start: Ring, rounds: seq<Round>, offset: nat, batchCount: nat,
                                     head: Ring)
    requires Looped(p, buf, start, rounds, offset, batchCount, head)
    requires forall i :: 0 <= i < |rounds| ==> InOrder(rounds[i])
    requires CanSave(p, buf, start.world)
    ensures OrderlyHead(p, buf, offset, batchCount, head)
    decreases |rounds|
  {
    hide Follows, InOrder;
    if rounds != [] {
      var n := |rounds| - 1;
      var x := rounds[n];
      LoopedLess(p, buf, start, rounds, offset, batchCount, head);
      LongHolds(p, buf, start, rounds[..n], x.offset, x.batchCount, x.head);
      LongNext(p, buf, x, offset, batchCount, head);
    }
  }

  // ---------- Whole runs ----------

  function Pass(rounds: seq<Round>, last: Round, n: nat): Round {
    if n < |rounds| then rounds[n] else last
  }

  lemma {:induction false} LoopedTo(p: Phase, buf: int, start: Ring, rounds: seq<Round>, offset: nat, batchCount: nat,
                                    head: Ring, n: nat)
    requires Looped(p, buf, start, rounds, offset, batchCount, head) && n < |rounds|
    ensures Looped(p, buf, start, rounds[..n], rounds[n].offset, rounds[n].batchCount, rounds[n].head)
    ensures RoundOk(p, buf, rounds[n]) && rounds[n].taken.res > 0
    decreases |rounds| - n
  {
    hide RoundOk;
    var m := |rounds| - 1;
    LoopedLess(p, buf, start, rounds, offset, batchCount, head);
    if n < m {
      LoopedTo(p, buf, start, rounds[..m], rounds[m].offset, rounds[m].batchCount, rounds[m].head, n);
      assert rounds[..m][..n] == rounds[..n];
    }
  }

  lemma {:induction false} PassAt(p: Phase, buf: int, start: Ring, rounds: seq<Round>, offset: nat, last: Round,
                                  posted: seq<Cqe>, w: World, n: nat)
    requires RecvRun(p, buf, start, rounds, offset, last, posted, w) && n <= |rounds|
    ensures var x := Pass(rounds, last, n);
            && Looped(p, buf, start, rounds[..n], x.offset, x.batchCount, x.head)
            && RoundOk(p, buf, x) && (x.taken.res > 0 <==> n < |rounds|)
            && (n < |rounds| ==>
                  && Pass(rounds, last, n + 1).offset == x.offset + x.taken.res <= offset
                  && Pass(rounds, last, n + 1).batchCount == if x.batchCount + 1 < BATCH then x.batchCount + 1 else 0)
            && x.offset <= offset
    decreases |rounds| - n
  {
    hide RoundOk, Settled;
    if n == |rounds| {
      assert rounds[..n] == rounds;
    } else {
      LoopedTo(p, buf, start, rounds, offset, last.batchCount, last.head, n);
      RoundFollows(p, buf, start, rounds, offset, last.batchCount, last.head, n);
      PassAt(p, buf, start, rounds, offset, last, posted, w, n + 1);
    }
  }

  ghost predicate AllInOrder(rounds: seq<Round>, last: Round) {
    InOrder(last) && forall i :: 0 <= i < |rounds| ==> InOrder(rounds[i])
  }

  /** Behind the last chunk the client goes on taking completions of writes: unless the stream ends
      at a flush, it queues a write behind the end of the stream. */
  lemma {:induction false} Overruns(p: Phase, buf: int, start: Ring, rounds: seq<Round>, offset: nat, last: Round,
                                    posted: seq<Cqe>, w: World)
    requires RecvRun(p, buf, start, rounds, offset, last, posted, w) && AllInOrder(rounds, last)
    requires CanSave(p, buf, start.world) && start.world.files[p.recvFd] == []
    requires |start.world.inbox[p.sock]| % 2048 != 0
    ensures offset > |start.world.inbox[p.sock]|
  {
    hide RecvRun, RoundOk, Looped, InOrder, PrefixHead, AfterWait, Follows, Runs, Submit;
    var s := start.world.inbox[p.sock];
    var n := Min(|s| / 4, |rounds|);
    var x := Pass(rounds, last, n);
    PassAt(p, buf, start, rounds, offset, last, posted, w, n);
    PrefixHolds(p, buf, s, start, rounds[..n], x.offset, x.batchCount, x.head);
    PrefixPass(p, buf, s, n, x);
    HeadNumbers(p, buf, s, n, x.offset, x.batchCount, x.head);
    if x.batchCount == 0 {
      var y := Pass(rounds, last, n + 1);
      PassAt(p, buf, start, rounds, offset, last, posted, w, n + 1);
      LongHolds(p, buf, start, rounds[..n + 1], y.offset, y.batchCount, y.head);
      LongPass(p, buf, y);
    }
  }

  lemma HeadNumbers(p: Phase, buf: int, s: seq<Byte>, n: nat, offset: nat, batchCount: nat, head: Ring)
    requires PrefixHead(p, buf, s, n, offset, batchCount, head)
    ensures offset == 4 * n <= |s| && batchCount == n % 512
  {
  }

  /** At the end nothing is in flight. */
  lemma {:induction false} RunEnds(p: Phase, buf: int, start: Ring, rounds: seq<Round>, offset: nat, last: Round,
                                   posted: seq<Cqe>, w: World)
    requires RecvRun(p, buf, start, rounds, offset, last, posted, w) && AllInOrder(rounds, last)
    requires CanSave(p, buf, start.world)
    ensures RoundOk(p, buf, last) && w == AfterWait(last).world
    ensures p.recvFd in w.files && offset <= |w.files[p.recvFd]|
  {
    hide InOrder, Looped, OrderlyHead, Runs, Submit, Settled;
    LongHolds(p, buf, start, rounds, offset, last.batchCount, last.head);
    LongPass(p, buf, last);
    NothingToRun(AfterWait(last), posted, w);
  }

  /** The loop ends with the stream. */
  lemma {:induction false} EndsWithStream(p: Phase, buf: int, start: Ring, rounds: seq<Round>, offset: nat, last: Round,
                                          posted: seq<Cqe>, w: World, n: nat)
    requires RecvRun(p, buf, start, rounds, offset, last, posted, w) && AllInOrder(rounds, last)
    requires CanSave(p, buf, start.world) && start.world.files[p.recvFd] == []
    requires |start.world.inbox[p.sock]| == 2048 * n
    ensures |rounds| == 512 * n && PrefixHead(p, buf, start.world.inbox[p.sock], 512 * n, offset, last.batchCount, last.head)
  {
    hide RecvRun, InOrder, Looped, PrefixHead, Follows, Runs, Submit, RoundOk, AfterWait;
    var s := start.world.inbox[p.sock];
    var m := Min(512 * n, |rounds|);
    var x := Pass(rounds, last, m);
    PassAt(p, buf, start, rounds, offset, last, posted, w, m);
    PrefixHolds(p, buf, s, start, rounds[..m], x.offset, x.batchCount, x.head);
    PrefixPass(p, buf, s, m, x);
    HeadNumbers(p, buf, s, m, x.offset, x.batchCount, x.head);
    LastHead(p, buf, start, rounds, offset, last, posted, w);
  }

  lemma LastHead(p: Phase, buf: int, start: Ring, rounds: seq<Round>, offset: nat, last: Round, posted: seq<Cqe>, w: World)
    requires RecvRun(p, buf, start, rounds, offset, last, posted, w)
    ensures last.offset == offset
  {
  }

  lemma {:induction false} WholeBatches(p: Phase, buf: int, start: Ring, rounds: seq<Round>, offset: nat, last: Round,
                                        posted: seq<Cqe>, w: World)
    requires RecvRun(p, buf, start, rounds, offset, last, posted, w) && AllInOrder(rounds, last)
    requires CanSave(p, buf, start.world) && start.world.files[p.recvFd] == []
    requires |start.world.inbox[p.sock]| % 2048 == 0
    ensures p.recvFd in w.files && w.files[p.recvFd] == start.world.inbox[p.sock]
  {
    hide RecvRun, InOrder, Looped, PrefixHead, Follows, Runs, Submit, RoundOk, AfterWait;
    var s := start.world.inbox[p.sock];
    var n := |s| / 2048;
    EndsWithStream(p, buf, start, rounds, offset, last, posted, w, n);
    LastHead(p, buf, start, rounds, offset, last, posted, w);
    RunEnds(p, buf, start, rounds, offset, last, posted, w);
    PrefixPass(p, buf, s, 512 * n, last);
    HeadNumbers(p, buf, s, 512 * n, offset, last.batchCount, last.head);
    assert s[..|s|] == s;
  }

  /** If the kernel runs every request in queue order, recv.txt is the stream exactly if the stream is
      a number of whole batches of 512 chunks of 4 bytes. */
  lemma {:induction false} InOrderSavesIff(p: Phase, buf: int, start: Ring, rounds: seq<Round>, offset: nat, last: Round,
                                           posted: seq<Cqe>, w: World)
    requires RecvRun(p, buf, start, rounds, offset, last, posted, w) && AllInOrder(rounds, last)
    requires CanSave(p, buf, start.world) && start.world.files[p.recvFd] == []
    ensures p.recvFd in w.files
    ensures w.files[p.recvFd] == start.world.inbox[p.sock] <==> |start.world.inbox[p.sock]| % 2048 == 0
  {
    hide RecvRun, AllInOrder;
    if |start.world.inbox[p.sock]| % 2048 == 0 {
      WholeBatches(p, buf, start, rounds, offset, last, posted, w);
    } else {
      Overruns(p, buf, start, rounds, offset, last, posted, w);
      RunEnds(p, buf, start, rounds, offset, last, posted, w);
    }
  }

  // ---------- Runs to the end ----------

  /** A request of the receive phase. */
  predicate Mine(p: Phase, buf: int, op: Op)
    requires p.Receiving?
  {
    op == Recv(p.sock, buf, 4) || (op.Write? && op.fd == p.recvFd && op.buf == buf && op.off >= 0)
  }

  /** A loop head: nothing is linked, and `batchCount` requests are open. */
  ghost predicate RecvHead(p: Phase, buf: int, batchCount: nat, head: Ring) {
    && p.Receiving? && Wf(head) && Open(head) == batchCount < BATCH
    && (forall i :: 0 <= i < |head.sq| ==> !head.sq[i].link && Mine(p, buf, head.sq[i].op))
    && (forall i :: 0 <= i < |head.flying| ==> |head.flying[i]| == 1 && Mine(p, buf, head.flying[i][0]))
  }

  /** What is still to be received and what the buffer and recv.txt begin with is zero. */
  ghost predicate Spoiled(p: Phase, buf: int, w: World) {
    && CanSave(p, buf, w) && w.mem[buf] == 0
    && (w.files[p.recvFd] != [] ==> w.files[p.recvFd][0] == 0)
    && forall i :: 0 <= i < |w.inbox[p.sock]| ==> w.inbox[p.sock][i] == 0
  }

  lemma SpoiledStays(p: Phase, buf: int, op: Op, w: World)
    requires Spoiled(p, buf, w) && Mine(p, buf, op)
    ensures Spoiled(p, buf, Do(op, w))
  {
  }

  lemma {:induction false} PlainSpoiled(p: Phase, buf: int, order: seq<Op>, w: World)
    requires Spoiled(p, buf, w) && forall i :: 0 <= i < |order| ==> Mine(p, buf, order[i])
    ensures Spoiled(p, buf, DoAll(order, w))
  {
    hide Spoiled, Mine, Do;
    if order != [] {
      SpoiledStays(p, buf, order[0], w);
      PlainSpoiled(p, buf, order[1..], Do(order[0], w));
    }
  }

  /** The kernel can run what is in flight plainly and in queue order. */
  lemma {:induction false} DrainInOrder(r: Ring) returns (sched: seq<Choice>)
    requires Wf(r) && AllSingle(r.flying)
    ensures var order := Flatten(r.flying);
            && PostedBy(r, sched) == Plain(order, r.world)
            && Runs(r, sched) == r.(flying := [], cq := r.cq + Plain(order, r.world), world := DoAll(order, r.world))
            && Settled(r, Plain(order, r.world), DoAll(order, r.world))
  {
    hide Runs, PostedBy, Plain, DoAll, Settled;
    MergeInOrder(r.flying);
    sched := MergeReached(r, Flatten(r.flying));
    DrainedIsSettled(r, sched);
  }

  /** A pass from any loop head in which the kernel does so. */
  lemma {:induction false} PassInOrder(p: Phase, buf: int, offset: nat, batchCount: nat, head: Ring, spoiled: bool)
    returns (x: Round)
    requires RecvHead(p, buf, batchCount, head) && (spoiled ==> Spoiled(p, buf, head.world))
    ensures RoundOk(p, buf, x) && InOrder(x)
    ensures x.offset == offset && x.batchCount == batchCount && x.head == head && x.flushed == []
    ensures AfterWait(x).sq == [] && AfterWait(x).flying == [] && Open(AfterWait(x)) == batchCount
    ensures spoiled ==> Spoiled(p, buf, AfterWait(x).world)
  {
    hide Runs, PostedBy, Plain, DoAll, Settled, Spoiled;
    var submitted := head.(sq := head.sq + [Sqe(Recv(p.sock, buf, 4), false)]);
    var r := Submit(submitted);
    UnlinkedChains(Queued(submitted.sq), Links(submitted.sq));
    SubmitCounts(submitted);
    var sched := DrainInOrder(r);
    x := Round(offset, batchCount, head, submitted, sched, Runs(r, sched).cq[0], []);
    PlainOps([], Runs(r, sched).world);
    if spoiled {
      forall i | 0 <= i < |Flatten(r.flying)| ensures Mine(p, buf, Flatten(r.flying)[i]) {
        SinglesFlatten(r.flying, i);
      }
      PlainSpoiled(p, buf, Flatten(r.flying), head.world);
    }
  }

  /** The next loop head behind such a pass. */
  lemma {:induction false} NextInOrder(p: Phase, buf: int, x0: Round, spoiled: bool)
    returns (x: Round, batchCount: nat, head: Ring)
    requires p.Receiving? && RoundOk(p, buf, x0) && InOrder(x0) && x0.flushed == [] && x0.taken.res > 0
    requires Wf(x0.head) && AfterWait(x0).sq == [] && AfterWait(x0).flying == []
    requires Open(AfterWait(x0)) == x0.batchCount && (spoiled ==> Spoiled(p, buf, AfterWait(x0).world))
    ensures x == x0.(flushed := x.flushed) && InOrder(x)
    ensures Follows(p, buf, x, x.offset + x.taken.res, batchCount, head)
    ensures RecvHead(p, buf, batchCount, head) && (spoiled ==> Spoiled(p, buf, head.world))
    ensures batchCount == if x.batchCount + 1 < BATCH then x.batchCount + 1 else 0
    ensures x.batchCount + 1 < BATCH ==> head == Replied(p, buf, x0)
    ensures Left(head.world, p.sock) <= Left(AfterWait(x0).world, p.sock)
  {
    hide Runs, PostedBy, Plain, DoAll, Settled, Spoiled, Left;
    var full, write := Replied(p, buf, x0), Reply(p, buf, x0.offset, x0.taken.res);
    if x0.batchCount + 1 < BATCH {
      x, batchCount, head := x0, x0.batchCount + 1, full;
    } else {
      var w := DoAll([write], full.world);
      var flushed := FlushWrite(full, write);
      batchCount, head := 0, NewRing(full.depth, w);
      x := x0.(flushed := flushed);
      SettledLeft(full, flushed, w, p.sock);
      SettledReplay(Submit(full), flushed, w);
      if spoiled {
        PlainSpoiled(p, buf, [write], full.world);
      }
    }
    ReplyFollows(p, buf, x0, full, x.flushed, x.offset + x.taken.res, batchCount, head);
  }

  lemma {:induction false} FlushWrite(full: Ring, op: Op) returns (flushed: seq<Cqe>)
    requires full.sq == [Sqe(op, false)] && full.flying == []
    ensures flushed == Plain([op], full.world) == Plain(Ops(flushed), full.world)
    ensures Settled(Submit(full), flushed, DoAll([op], full.world))
  {
    hide Settled;
    assert Queued(full.sq) == [op];
    AllLinkedIsOneChain([op], Links(full.sq));
    assert Submit(full).flying == [[op]];
    var sched := DrainInOrder(Submit(full));
    flushed := Plain([op], full.world);
    PlainOps([op], full.world);
  }

  /** Every loop head has such a run to the end. */
  lemma {:induction false} FinishInOrder(p: Phase, buf: int, start: Ring, rounds: seq<Round>, offset: nat, batchCount: nat,
                                         head: Ring, spoiled: bool)
    returns (rounds': seq<Round>, offset': nat, last: Round, posted: seq<Cqe>, w: World)
    requires Looped(p, buf, start, rounds, offset, batchCount, head)
    requires RecvHead(p, buf, batchCount, head) && (spoiled ==> Spoiled(p, buf, head.world))
    ensures RecvRun(p, buf, start, rounds', offset', last, posted, w) && posted == []
    ensures rounds <= rounds' && InOrder(last) && forall i :: |rounds| <= i < |rounds'| ==> InOrder(rounds'[i])
    ensures spoiled ==> Spoiled(p, buf, w)
    decreases Left(head.world, p.sock), if batchCount == 0 then 0 else BATCH - batchCount
  {
    hide Looped, Follows, Settled, InOrder, Spoiled, Left, Runs, Submit;
    var x0 := PassInOrder(p, buf, offset, batchCount, head, spoiled);
    if x0.taken.res > 0 {
      var x, batchCount', head' := NextInOrder(p, buf, x0, spoiled);
      LoopedMore(p, buf, start, rounds, x, offset + x.taken.res, batchCount', head');
      LeftShrinks(p, buf, x0, AfterWait(x0));
      rounds', offset', last, posted, w :=
        FinishInOrder(p, buf, start, rounds + [x], offset + x.taken.res, batchCount', head', spoiled);
      assert forall i :: |rounds| <= i < |rounds'| ==> InOrder(rounds'[i]) by {
        assert rounds'[|rounds|] == x;
      }
    } else {
      rounds', offset', last, posted, w := rounds, offset, x0, [], AfterWait(x0).world;
      NothingSettles(AfterWait(x0));
    }
  }

  // ---------- Any order ----------

  /** Every request of the pass runs as the plain call would, in any order. */
  ghost predicate Healthy(x: Round) {
    && PostedBy(Submit(x.submitted), x.sched)
       == Plain(Ops(PostedBy(Submit(x.submitted), x.sched)), x.submitted.world)
    && x.flushed == Plain(Ops(x.flushed), Runs(Submit(x.submitted), x.sched).world)
  }

  ghost predicate AllHealthy(rounds: seq<Round>, last: Round, posted: seq<Cqe>)
    requires Runs(Submit(last.submitted), last.sched).cq != []
  {
    && (forall i :: 0 <= i < |rounds| ==> Healthy(rounds[i]))
    && Healthy(last) && posted == Plain(Ops(posted), AfterWait(last).world)
  }

  /** Whatever the schedule, if every request runs as the plain call would, recv.txt is the stream. */
  ghost predicate AlwaysSaves(p: Phase, buf: int, size: nat) {
    forall start: Ring, rounds, offset, last, posted, w ::
      CanSave(p, buf, start.world) && start.world.files[p.recvFd] == [] && |start.world.inbox[p.sock]| == size
      && RecvRun(p, buf, start, rounds, offset, last, posted, w) && AllHealthy(rounds, last, posted) ==>
        p.recvFd in w.files && w.files[p.recvFd] == start.world.inbox[p.sock]
  }

  lemma {:induction false} InOrderHealthy(x: Round)
    requires InOrder(x)
    ensures Healthy(x)
  {
    PlainOps(Flatten(Submit(x.submitted).flying), x.submitted.world);
  }

  /** Of an empty stream the first recv moves nothing, and the loop ends. */
  lemma {:induction false} FirstRecv(p: Phase, buf: int, x: Round)
    requires CanSave(p, buf, x.head.world) && RoundOk(p, buf, x) && Idle(x.head) && Healthy(x)
    ensures x.taken.res == Min(4, |x.head.world.inbox[p.sock]|)
    ensures AfterWait(x) == NewRing(x.head.depth, AfterWait(x).world)
    ensures AfterWait(x).world.files == x.head.world.files
  {
    var op := Recv(p.sock, buf, 4);
    var r := Submit(x.submitted);
    assert x.submitted.sq == [Sqe(op, false)];
    var f := OwnCompletion(x.submitted, op, x.sched);
    RunsPost(r, x.sched);
    assert [] + PostedBy(r, x.sched) == PostedBy(r, x.sched);
    assert PostedBy(r, x.sched)[0] == Plain([op], r.world)[0];
  }

  lemma {:induction false} EmptyStreamSaved(p: Phase, buf: int, start: Ring, rounds: seq<Round>, offset: nat, last: Round,
                                            posted: seq<Cqe>, w: World)
    requires RecvRun(p, buf, start, rounds, offset, last, posted, w) && AllHealthy(rounds, last, posted)
    requires CanSave(p, buf, start.world) && start.world.inbox[p.sock] == []
    ensures w.files == start.world.files
  {
    hide Looped, Settled, Healthy, Runs, Submit;
    var x := Pass(rounds, last, 0);
    PassAt(p, buf, start, rounds, offset, last, posted, w, 0);
    HeadOf(p, buf, start, rounds[..0], x.offset, x.batchCount, x.head);
    FirstRecv(p, buf, x);
    NothingToRun(AfterWait(last), posted, w);
  }

  lemma HeadOf(p: Phase, buf: int, start: Ring, rounds: seq<Round>, offset: nat, batchCount: nat, head: Ring)
    requires Looped(p, buf, start, rounds, offset, batchCount, head) && rounds == []
    ensures head == start && Idle(start) && offset == 0 && batchCount == 0
  {
  }

  /** The second pass over a longer stream, with the recv ahead of the write: the first chunk is lost
      before it is written. */
  lemma {:induction false} OvertakingPass(p: Phase, buf: int, head: Ring) returns (y: Round)
    requires RecvHead(p, buf, 1, head) && CanSave(p, buf, head.world)
    requires head.sq == [Sqe(Write(p.recvFd, buf, 4, 0), false)] && head.flying == [] && head.cq == []
    requires head.world.files[p.recvFd] == [] && head.world.inbox[p.sock] != []
    requires forall i :: 0 <= i < |head.world.inbox[p.sock]| ==> head.world.inbox[p.sock][i] == 0
    ensures RoundOk(p, buf, y) && Healthy(y) && y.taken.res > 0
    ensures y.offset == 4 && y.batchCount == 1 && y.head == head && y.flushed == []
    ensures RecvHead(p, buf, 2, Replied(p, buf, y)) && Spoiled(p, buf, Replied(p, buf, y).world)
  {
    var write, recv := Write(p.recvFd, buf, 4, 0), Recv(p.sock, buf, 4);
    var submitted := head.(sq := head.sq + [Sqe(recv, false)]);
    var r := Submit(submitted);
    assert Queued(submitted.sq) == [write, recv];
    UnlinkedChains([write, recv], Links(submitted.sq));
    var c := Choice(1, Fine);
    SecondFirst(r, write, recv);
    OneCall(recv, r.world);
    y := Round(4, 1, head, submitted, [c], Runs(r, [c]).cq[0], []);
  }

  lemma {:induction false} SecondFirst(r: Ring, a: Op, b: Op)
    requires r.flying == [[a], [b]] && r.cq == []
    ensures var sched := [Choice(1, Fine)];
            && Runs(r, sched) == r.(flying := [[a]], cq := [Cqe(b, Best(b, r.world))], world := Do(b, r.world))
            && PostedBy(r, sched) == [Cqe(b, Best(b, r.world))]
  {
    hide Best, Do;
    var c := Choice(1, Fine);
    PlainStep(r, 1);
    assert Advance(r.flying, 1) == [[a]];
    assert [c][1..] == [] && Runs(r, [c]) == KernelStep(r, c);
    assert PostedBy(r, [c]) == Posted(r, c) + [];
  }

  function Stream(size: nat): (r: seq<Byte>)
    requires size > 0
    ensures |r| == size && r[0] == 1 && forall i :: 0 < i < size ==> r[i] == 0
  {
    [1] + Zeros(size - 1)
  }

  /** The first pass over a longer stream. */
  lemma {:induction false} FirstChunk(p: Phase, buf: nat, size: nat, start: Ring) returns (x: Round, head: Ring)
    requires p.Receiving? && size > 4 && start == NewRing(QUEUE_DEPTH, start.world)
    requires CanSave(p, buf, start.world) && start.world.files[p.recvFd] == []
    requires start.world.inbox[p.sock] == Stream(size)
    ensures x.offset == 0 && x.batchCount == 0 && x.head == start
    ensures Follows(p, buf, x, 4, 1, head) && Healthy(x) && RecvHead(p, buf, 1, head) && CanSave(p, buf, head.world)
    ensures head.sq == [Sqe(Write(p.recvFd, buf, 4, 0), false)] && head.flying == [] && head.cq == []
    ensures head.world.files[p.recvFd] == [] && head.world.inbox[p.sock] == Stream(size)[4..]
  {
    hide Runs, Submit, Settled, InOrder, PostedBy, Healthy;
    var x0 := PassInOrder(p, buf, 0, 0, start, false);
    InOrderHealthy(x0);
    FirstRecv(p, buf, x0);
    FirstInbox(p, buf, Stream(size), x0);
    var batchCount;
    x, batchCount, head := NextInOrder(p, buf, x0, false);
    InOrderHealthy(x);
  }

  lemma {:induction false} FirstInbox(p: Phase, buf: int, s: seq<Byte>, x: Round)
    requires RoundOk(p, buf, x) && InOrder(x) && Idle(x.head) && CanSave(p, buf, x.head.world)
    requires x.head.world.inbox[p.sock] == s && 4 <= |s|
    ensures CanSave(p, buf, AfterWait(x).world) && AfterWait(x).world.inbox[p.sock] == s[4..]
  {
    hide Do, InOrder, Runs, Submit;
    OrderlyPass(p, buf, x);
    OneCall(Recv(p.sock, buf, 4), x.head.world);
    assert Queued(x.head.sq) + [Recv(p.sock, buf, 4)] == [Recv(p.sock, buf, 4)];
    assert s[0..] == s;
    ChunkReceived(p, buf, s, 0, x.head.world);
  }

  lemma {:induction false} HealthyTail(rounds: seq<Round>, n: nat, last: Round)
    requires Runs(Submit(last.submitted), last.sched).cq != [] && n <= |rounds|
    requires forall i :: 0 <= i < n ==> Healthy(rounds[i])
    requires InOrder(last) && forall i :: n <= i < |rounds| ==> InOrder(rounds[i])
    ensures AllHealthy(rounds, last, [])
  {
    hide InOrder, Healthy;
    InOrderHealthy(last);
    forall i | n <= i < |rounds| ensures Healthy(rounds[i]) {
      InOrderHealthy(rounds[i]);
    }
  }

  /** A stream of more than one chunk: the first byte is lost. */
  lemma {:induction false} LongStreamSpoiled(p: Phase, buf: nat, size: nat)
    returns (start: Ring, rounds: seq<Round>, offset: nat, last: Round, posted: seq<Cqe>, w: World)
    requires p.Receiving? && size > 4
    ensures CanSave(p, buf, start.world) && start.world.files[p.recvFd] == [] && start.world.inbox[p.sock] == Stream(size)
    ensures RecvRun(p, buf, start, rounds, offset, last, posted, w) && AllHealthy(rounds, last, posted)
    ensures p.recvFd in w.files && w.files[p.recvFd] != start.world.inbox[p.sock]
  {
    hide Follows, Looped, Settled, Healthy, AllHealthy, InOrder, RecvHead, Runs, Submit;
    var w0 := World(Zeros(buf + 4), map[p.recvFd := []], map[], map[p.sock := Stream(size)]);
    start := NewRing(QUEUE_DEPTH, w0);
    StartLoop(p, buf, start);
    var x, head := FirstChunk(p, buf, size, start);
    var y := OvertakingPass(p, buf, head);
    var k := y.taken.res;
    LoopedMore(p, buf, start, [], x, 4, 1, head);
    ReplyFollows(p, buf, y, Replied(p, buf, y), [], 4 + k, 2, Replied(p, buf, y));
    LoopedMore(p, buf, start, [] + [x], y, 4 + k, 2, Replied(p, buf, y));
    rounds, offset, last, posted, w :=
      FinishInOrder(p, buf, start, [] + [x] + [y], 4 + k, 2, Replied(p, buf, y), true);
    HealthyTail(rounds, 2, last);
  }

  /** If every request runs as the plain call would, in whatever order, the answer is sure to be saved
      exactly if it is empty. */
  lemma {:induction false} AlwaysSavesIff(sock: int, recvFd: int, buf: nat, size: nat)
    ensures AlwaysSaves(Receiving(sock, recvFd), buf, size) <==> size == 0
  {
    hide Looped, Settled, AllHealthy, Runs, Submit;
    var p := Receiving(sock, recvFd);
    if size == 0 {
      forall start: Ring, rounds, offset, last, posted, w |
        CanSave(p, buf, start.world) && start.world.files[p.recvFd] == [] && |start.world.inbox[p.sock]| == size
        && RecvRun(p, buf, start, rounds, offset, last, posted, w) && AllHealthy(rounds, last, posted)
        ensures p.recvFd in w.files && w.files[p.recvFd] == start.world.inbox[p.sock]
      {
        EmptyStreamSaved(p, buf, start, rounds, offset, last, posted, w);
      }
    } else if size <= 4 {
      var start, rounds, offset, last, posted, w := ShortStreamOverrun(p, buf, size);
    } else {
      var start, rounds, offset, last, posted, w := LongStreamSpoiled(p, buf, size);
    }
  }

  /** A stream of one chunk in queue order: the write's completion is taken for a recv's. */
  lemma {:induction false} ShortStreamOverrun(p: Phase, buf: nat, size: nat)
    returns (start: Ring, rounds: seq<Round>, offset: nat, last: Round, posted: seq<Cqe>, w: World)
    requires p.Receiving? && 0 < size <= 4
    ensures CanSave(p, buf, start.world) && start.world.files[p.recvFd] == [] && start.world.inbox[p.sock] == Stream(size)
    ensures RecvRun(p, buf, start, rounds, offset, last, posted, w) && AllHealthy(rounds, last, posted)
    ensures p.recvFd in w.files && w.files[p.recvFd] != start.world.inbox[p.sock]
  {
    hide Follows, Looped, Settled, Healthy, AllHealthy, InOrder, RecvHead, Runs, Submit;
    var w0 := World(Zeros(buf + 4), map[p.recvFd := []], map[], map[p.sock := Stream(size)]);
    start := NewRing(QUEUE_DEPTH, w0);
    StartLoop(p, buf, start);
    StartHead(p, buf, start);
    rounds, offset, last, posted, w := FinishInOrder(p, buf, start, [], 0, 0, start, false);
    HealthyTail(rounds, 0, last);
    InOrderSavesIff(p, buf, start, rounds, offset, last, posted, w);
  }

  lemma {:induction false} StartHead(p: Phase, buf: int, start: Ring)
    requires p.Receiving? && Idle(start)
    ensures RecvHead(p, buf, 0, start)
  {
  }
}
