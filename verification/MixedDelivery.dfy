/** When the file that the mixed client reads arrives at the socket
    (iouring_hotpatch/uring_client copy.c). */
module MixedDelivery {
  import opened Basics
  import opened World
  import opened Uring
  import opened UnlinkedBatches
  import opened MixedClient

  ghost predicate Ready(p: Phase, buf: int, w: World) {
    && p.Sending? && p.fileFd in w.files && |w.files[p.fileFd]| == p.size && p.sock in w.outbox
    && 0 <= buf && buf + BUF_SIZE <= |w.mem|
  }

  /** Every completion of the run moved all that was asked for. */
  ghost predicate FullRun(p: Phase, rounds: seq<Round>, offset: nat, last: Round, posted: seq<Cqe>)
    requires p.Sending?
  {
    && FullRounds(rounds) && AllFull(posted)
    && (offset < p.size ==> AllFull(PostedBy(Submit(last.submitted), last.sched)))
  }

  ghost predicate FullRounds(rounds: seq<Round>) {
    forall i :: 0 <= i < |rounds| ==> FullRound(rounds[i])
  }

  ghost predicate FullRound(x: Round) {
    AllFull(PostedBy(Submit(x.submitted), x.sched)) && AllFull(x.flushed)
  }

  /** Whatever the schedule, if nothing fails or falls short the socket is sent the file. */
  ghost predicate AlwaysArrives(p: Phase, buf: int)
    requires p.Sending?
  {
    forall start: Ring, rounds, offset, last, posted, w ::
      Ready(p, buf, start.world) && start.depth == QUEUE_DEPTH
      && SendRun(p, buf, start, rounds, offset, last, posted, w) && FullRun(p, rounds, offset, last, posted) ==>
        p.sock in w.outbox && w.outbox[p.sock] == start.world.outbox[p.sock] + start.world.files[p.fileFd]
  }

  // ---------- Files of one chunk arrive ----------

  /** The first wait takes the first read's own completion. */
  lemma FirstRound(p: Phase, buf: nat, x: Round)
    requires Ready(p, buf, x.head.world) && RoundOk(p, buf, x) && Idle(x.head) && x.offset == 0
    requires AllFull(PostedBy(Submit(x.submitted), x.sched))
    ensures var n := Min(BUF_SIZE, p.size);
            && x.taken == Cqe(Read(p.fileFd, buf, n, 0), n) && n > 0
            && AfterWait(x) == NewRing(x.head.depth, AfterWait(x).world)
            && AfterWait(x).world == Do(x.taken.op, x.submitted.world)
  {
    var op := Request(p, buf, 0);
    assert x.submitted.sq == [Sqe(op, false)];
    var f := OwnCompletion(x.submitted, op, x.sched);
    RunsPost(Submit(x.submitted), x.sched);
    assert [] + PostedBy(Submit(x.submitted), x.sched) == PostedBy(Submit(x.submitted), x.sched);
    assert Full(PostedBy(Submit(x.submitted), x.sched)[0]);
    FullMeansPlain(op, f, x.submitted.world);
  }

  lemma ChunkInBuffer(p: Phase, buf: nat, x: Round)
    requires Ready(p, buf, x.head.world) && RoundOk(p, buf, x) && Idle(x.head) && x.offset == 0
    requires AllFull(PostedBy(Submit(x.submitted), x.sched)) && p.size <= BUF_SIZE
    ensures var w := Stored(p, buf, p.size, AfterWait(x).world);
            && x.taken.res == p.size > 0 && AfterWait(x) == NewRing(x.head.depth, AfterWait(x).world)
            && w.outbox == x.head.world.outbox && buf + p.size <= |w.mem|
            && w.mem[buf..buf + p.size] == x.head.world.files[p.fileFd]
  {
    FirstRound(p, buf, x);
    var file := x.head.world.files[p.fileFd];
    assert file[0..p.size] == file;
  }

  /** One send alone, completed in full, appends its bytes. */
  lemma LastSend(r: Ring, sock: int, buf: nat, n: nat, posted: seq<Cqe>, w: World)
    requires r.sq == [Sqe(Send(sock, buf, n), false)] && r.flying == [] && r.cq == []
    requires Settled(Submit(r), posted, w) && AllFull(posted)
    requires sock in r.world.outbox && buf + n <= |r.world.mem|
    ensures sock in w.outbox && w.outbox[sock] == r.world.outbox[sock] + r.world.mem[buf..buf + n]
  {
    var send := Send(sock, buf, n);
    assert Queued(r.sq) == [send];
    AllLinkedIsOneChain([send], Links(r.sq));
    assert Submit(r).flying == [[send]];
    MergeOfOne([send], Ops(posted));
    assert [send][1..] == [];
    assert DoAll([send], r.world) == DoAll([], Do(send, r.world));
    assert r.world.mem[buf..buf + 0] == [] && r.world.outbox[sock] + [] == r.world.outbox[sock];
  }

  lemma ShortFileArrives(p: Phase, buf: nat, start: Ring, rounds: seq<Round>, offset: nat, last: Round,
                         posted: seq<Cqe>, w: World)
    requires p.Sending? && p.size <= BUF_SIZE && Ready(p, buf, start.world)
    requires SendRun(p, buf, start, rounds, offset, last, posted, w) && FullRun(p, rounds, offset, last, posted)
    ensures p.sock in w.outbox && w.outbox[p.sock] == start.world.outbox[p.sock] + start.world.files[p.fileFd]
  {
    hide RoundOk, Settled, AllFull, Terminated, Runs, Submit;
    var file, out := start.world.files[p.fileFd], start.world.outbox[p.sock];
    if rounds == [] {
      if p.size == 0 {
        NothingToRun(start, posted, w);
        assert file == [] && out + [] == out;
      } else {
        ChunkInBuffer(p, buf, last);
      }
    } else {
      var x := rounds[0];
      assert FullRound(x) && RoundOk(p, buf, x) by {
        assert |rounds| > 1 ==> Follows(p, buf, rounds[0], rounds[1].offset, rounds[1].batchCount, rounds[1].head);
      }
      ChunkInBuffer(p, buf, x);
      OneRound(p, buf, start, rounds, offset, last.batchCount, last.head);
      assert Follows(p, buf, x, offset, last.batchCount, last.head);
      assert offset == p.size;
      LastSend(last.head, p.sock, buf, p.size, posted, w);
    }
  }

  lemma OneRound(p: Phase, buf: nat, start: Ring, rounds: seq<Round>, offset: nat, batchCount: nat, head: Ring)
    requires p.Sending? && rounds != [] && Looped(p, buf, start, rounds, offset, batchCount, head)
    requires rounds[0].taken.res >= p.size
    ensures |rounds| == 1
  {
    if |rounds| > 1 {
      assert Follows(p, buf, rounds[0], rounds[1].offset, rounds[1].batchCount, rounds[1].head);
      assert RoundOk(p, buf, rounds[1]) by {
        assert |rounds| > 2 ==> Follows(p, buf, rounds[1], rounds[2].offset, rounds[2].batchCount, rounds[2].head);
      }
    }
  }

  // ---------- Longer files need not ----------

  /** A request of the send phase that moves something. */
  predicate Good(p: Phase, buf: int, op: Op)
    requires p.Sending?
  {
    && (op.Read? || op.Send?) && op.buf == buf && 0 < op.n <= BUF_SIZE
    && (if op.Read? then op.fd == p.fileFd && 0 <= op.off && op.off + op.n <= p.size else op.fd == p.sock)
  }

  /** All requests are unlinked and good, all completions so far are full. */
  ghost predicate Sane(p: Phase, buf: int, r: Ring) {
    && Ready(p, buf, r.world) && r.depth == QUEUE_DEPTH
    && (forall i :: 0 <= i < |r.sq| ==> !r.sq[i].link && Good(p, buf, r.sq[i].op))
    && (forall i :: 0 <= i < |r.flying| ==> |r.flying[i]| == 1 && Good(p, buf, r.flying[i][0]))
    && (forall i :: 0 <= i < |r.cq| ==> Full(r.cq[i]) && Good(p, buf, r.cq[i].op))
  }

  /** The socket was sent at least what `s` says. */
  ghost predicate Grown(p: Phase, s: seq<Byte>, w: World)
    requires p.Sending?
  {
    p.sock in w.outbox && s <= w.outbox[p.sock]
  }

  lemma GoodOp(p: Phase, buf: int, op: Op, w: World, s: seq<Byte>)
    requires Ready(p, buf, w) && Good(p, buf, op) && Grown(p, s, w)
    ensures Best(op, w) == Len(op) > 0 && Ready(p, buf, Do(op, w)) && Grown(p, s, Do(op, w))
  {
  }

  lemma SubmitSane(p: Phase, buf: int, r: Ring)
    requires Sane(p, buf, r) && Wf(r)
    ensures Sane(p, buf, Submit(r)) && Wf(Submit(r)) && AllSingle(Submit(r).flying)
    ensures Submit(r).world == r.world && Submit(r).cq == r.cq
  {
    UnlinkedChains(Queued(r.sq), Links(r.sq));
  }

  lemma FineStep(p: Phase, buf: int, r: Ring, s: seq<Byte>)
    requires Sane(p, buf, r) && r.flying != [] && Grown(p, s, r.world)
    ensures var r' := KernelStep(r, Choice(0, Fine));
            && Sane(p, buf, r') && r'.cq != [] && Grown(p, s, r'.world) && r'.sq == r.sq
            && AllFull(Posted(r, Choice(0, Fine)))
  {
    hide Do, Best;
    var op := r.flying[0][0];
    GoodOp(p, buf, op, r.world, s);
    PlainStep(r, 0);
    assert Advance(r.flying, 0) == r.flying[1..];
  }

  lemma PlainGood(p: Phase, buf: int, order: seq<Op>, w: World, s: seq<Byte>)
    requires Ready(p, buf, w) && Grown(p, s, w) && forall i :: 0 <= i < |order| ==> Good(p, buf, order[i])
    ensures AllFull(Plain(order, w)) && Ready(p, buf, DoAll(order, w)) && Grown(p, s, DoAll(order, w))
  {
    hide Do, Best, Good;
    if order != [] {
      GoodOp(p, buf, order[0], w, s);
      PlainGood(p, buf, order[1..], Do(order[0], w), s);
      AllFullAppend([Cqe(order[0], Best(order[0], w))], Plain(order[1..], Do(order[0], w)));
    }
  }

  /** The kernel can run all that is in flight plainly. */
  lemma Drain(p: Phase, buf: int, r: Ring, s: seq<Byte>) returns (posted: seq<Cqe>, w: World)
    requires Sane(p, buf, r) && Wf(r) && Grown(p, s, r.world)
    ensures Settled(r, posted, w) && AllFull(posted) && Ready(p, buf, w) && Grown(p, s, w)
  {
    hide Good, Plain, DoAll, Merge, Runs, PostedBy;
    var order := Flatten(r.flying);
    forall i | 0 <= i < |order| ensures Good(p, buf, order[i]) {
      SinglesFlatten(r.flying, i);
    }
    PlainGood(p, buf, order, r.world, s);
    MergeInOrder(r.flying);
    var sched := MergeReached(r, order);
    posted, w := Plain(order, r.world), DoAll(order, r.world);
    DrainedIsSettled(r, sched);
  }

  /** A loop head in such a run. */
  ghost predicate SaneHead(p: Phase, buf: int, batchCount: nat, head: Ring) {
    Sane(p, buf, head) && Wf(head) && Open(head) == batchCount < BATCH
  }

  function Submitted(p: Phase, buf: int, offset: nat, head: Ring): Ring
    requires p.Sending?
  {
    head.(sq := head.sq + [Sqe(Request(p, buf, offset), false)], world := Cleared(head.world, buf))
  }

  /** One step of the kernel, unless a completion is there already. */
  function Nudge(r: Ring): seq<Choice> {
    if r.cq != [] then [] else [Choice(0, Fine)]
  }

  lemma SubmittedSane(p: Phase, buf: int, offset: nat, batchCount: nat, head: Ring, s: seq<Byte>)
    requires SaneHead(p, buf, batchCount, head) && offset < p.size && Grown(p, s, head.world)
    ensures var r := Submitted(p, buf, offset, head);
            && Sane(p, buf, r) && Wf(r) && Open(r) == batchCount + 1 && Grown(p, s, r.world)
  {
  }

  lemma Nudged(p: Phase, buf: int, r: Ring, s: seq<Byte>)
    requires Sane(p, buf, r) && Wf(r) && Outstanding(r) > 0 && Grown(p, s, r.world)
    ensures var r' := Runs(r, Nudge(r));
            && Sane(p, buf, r') && Wf(r') && r'.cq != [] && Grown(p, s, r'.world)
            && r'.sq == r.sq && Outstanding(r') == Outstanding(r) && AllFull(PostedBy(r, Nudge(r)))
  {
    hide Sane, Grown, KernelStep, Posted;
    RunsConserve(r, Nudge(r));
    if r.cq == [] {
      var c := Choice(0, Fine);
      assert Nudge(r)[1..] == [];
      assert Runs(r, Nudge(r)) == KernelStep(r, c);
      assert PostedBy(r, Nudge(r)) == Posted(r, c) + [];
      FineStep(p, buf, r, s);
    }
  }

  /** A pass of the loop in which the kernel does no more than it must. */
  lemma LazyRound(p: Phase, buf: int, offset: nat, batchCount: nat, head: Ring, s: seq<Byte>) returns (x: Round)
    requires SaneHead(p, buf, batchCount, head) && offset < p.size && Grown(p, s, head.world)
    ensures RoundOk(p, buf, x) && FullRound(x) && x.taken.res > 0
    ensures x.offset == offset && x.batchCount == batchCount && x.head == head && x.flushed == []
    ensures x.sched == Nudge(Submit(x.submitted))
    ensures var full := Replied(p, buf, x);
            Sane(p, buf, full) && Wf(full) && Open(full) == batchCount + 1 && Grown(p, s, full.world)
  {
    hide Runs, Submit, PostedBy, Good, Grown;
    var r := Submitted(p, buf, offset, head);
    SubmittedSane(p, buf, offset, batchCount, head, s);
    SubmitSane(p, buf, r);
    SubmitCounts(r);
    Nudged(p, buf, Submit(r), s);
    var sched := Nudge(Submit(r));
    x := Round(offset, batchCount, head, r, sched, Runs(Submit(r), sched).cq[0], []);
    ReplySane(p, buf, x, Runs(Submit(r), x.sched));
  }

  lemma ReplySane(p: Phase, buf: int, x: Round, r: Ring)
    requires p.Sending? && r.cq != [] && x.taken == r.cq[0] && Sane(p, buf, r) && Wf(r)
    ensures x.taken.res > 0
    ensures var full := r.(cq := r.cq[1..], sq := [Sqe(Reply(p, buf, x.offset, x.taken.res), false)]);
            Sane(p, buf, full) && Wf(full) && Open(full) == Outstanding(r) && full.world == r.world
  {
  }

  /** The next loop head behind such a pass. */
  lemma LazyHead(p: Phase, buf: int, x0: Round, s: seq<Byte>) returns (x: Round, batchCount: nat, head: Ring)
    requires RoundOk(p, buf, x0) && FullRound(x0) && x0.taken.res > 0 && x0.flushed == []
    requires var full := Replied(p, buf, x0);
             Sane(p, buf, full) && Wf(full) && Open(full) == x0.batchCount + 1 && Grown(p, s, full.world)
    ensures x == x0.(flushed := x.flushed) && FullRound(x)
    ensures Follows(p, buf, x, x.offset + x.taken.res, batchCount, head)
    ensures SaneHead(p, buf, batchCount, head) && Grown(p, s, head.world)
    ensures x0.batchCount + 1 < BATCH ==>
              && batchCount == x0.batchCount + 1
              && head == Replied(p, buf, x0).(world := Stored(p, buf, x0.taken.res, Replied(p, buf, x0).world))
  {
    hide Runs, Submit, PostedBy, Good, Settled;
    var full, n := Replied(p, buf, x0), x0.taken.res;
    var flushed: seq<Cqe> := [];
    if x0.batchCount + 1 < BATCH {
      batchCount, head := x0.batchCount + 1, full.(world := Stored(p, buf, n, full.world));
    } else {
      var w;
      SubmitSane(p, buf, full);
      flushed, w := Drain(p, buf, Submit(full), s);
      batchCount, head := 0, NewRing(full.depth, Stored(p, buf, n, w));
      SettledReplay(Submit(full), flushed, w);
    }
    ReplyFollows(p, buf, x0, full, flushed, x0.offset + n, batchCount, head);
    x := x0.(flushed := flushed);
  }

  /** Every such loop head has a run to the end. */
  lemma Finish(p: Phase, buf: int, start: Ring, rounds: seq<Round>, offset: nat, batchCount: nat, head: Ring, s: seq<Byte>)
    returns (rounds': seq<Round>, offset': nat, last: Round, posted: seq<Cqe>, w: World)
    requires Looped(p, buf, start, rounds, offset, batchCount, head) && FullRounds(rounds)
    requires SaneHead(p, buf, batchCount, head) && Grown(p, s, head.world)
    ensures SendRun(p, buf, start, rounds', offset', last, posted, w) && FullRun(p, rounds', offset', last, posted)
    ensures Grown(p, s, w)
    decreases p.size - offset
  {
    hide Looped, RoundOk, Follows, Settled, AllFull, FullRound, Grown, Open, Wf;
    if offset < p.size {
      var x0 := LazyRound(p, buf, offset, batchCount, head, s);
      var x, batchCount', head' := LazyHead(p, buf, x0, s);
      LoopedMore(p, buf, start, rounds, x, offset + x.taken.res, batchCount', head');
      rounds', offset', last, posted, w :=
        Finish(p, buf, start, rounds + [x], offset + x.taken.res, batchCount', head', s);
    } else {
      SubmitSane(p, buf, head);
      posted, w := Drain(p, buf, Submit(head), s);
      rounds', offset', last := rounds, offset, Round(offset, batchCount, head, head, [], Cqe(Fsync(0), 0), []);
    }
  }

  lemma StartSane(p: Phase, buf: nat, start: Ring)
    requires Ready(p, buf, start.world) && start == NewRing(QUEUE_DEPTH, start.world)
    ensures SaneHead(p, buf, 0, start) && Looped(p, buf, start, [], 0, 0, start)
    ensures Grown(p, [], start.world) && FullRounds([])
  {
  }

  lemma StoredAside(p: Phase, buf: int, n: int, w: World)
    ensures Stored(p, buf, n, w) == w.(mem := Stored(p, buf, n, w).mem)
    ensures |Stored(p, buf, n, w).mem| == |w.mem|
  {
  }

  /** Behind the first pass its send is queued and nothing else is open. */
  lemma FirstHead(p: Phase, buf: nat, x: Round)
    requires Ready(p, buf, x.head.world) && p.size > BUF_SIZE && RoundOk(p, buf, x) && Idle(x.head) && x.offset == 0
    requires FullRound(x)
    ensures x.taken.res == BUF_SIZE
    ensures var full := Replied(p, buf, x);
            && full.sq == [Sqe(Send(p.sock, buf, BUF_SIZE), false)] && full.flying == [] && full.cq == []
            && full.world.outbox == x.head.world.outbox
  {
    FirstRound(p, buf, x);
  }

  /** In the second pass that send goes out with the cleared buffer. */
  lemma SecondPass(p: Phase, buf: nat, x: Round)
    requires Ready(p, buf, x.head.world) && RoundOk(p, buf, x) && Wf(x.head) && x.batchCount == 1
    requires x.head.sq == [Sqe(Send(p.sock, buf, BUF_SIZE), false)] && x.head.flying == [] && x.head.cq == []
    requires x.sched == Nudge(Submit(x.submitted))
    ensures p.sock in AfterWait(x).world.outbox
    ensures AfterWait(x).world.outbox[p.sock] == x.head.world.outbox[p.sock] + Zeros(BUF_SIZE)
  {
    LateSendSendsZeros(p, buf, x, BUF_SIZE, Fine);
    var start, c := Submit(x.submitted), Choice(0, Fine);
    assert start.cq == [] && x.sched == [c] && [c][1..] == [];
    assert Runs(start, x.sched) == KernelStep(start, c);
  }

  lemma SentZeros(p: Phase, buf: nat, x: Round, head: Ring)
    requires p.Sending? && Runs(Submit(x.submitted), x.sched).cq != [] && x.taken.res > 0
    requires p.sock in AfterWait(x).world.outbox && AfterWait(x).world.outbox[p.sock] == [] + Zeros(BUF_SIZE)
    requires head == Replied(p, buf, x).(world := Stored(p, buf, x.taken.res, Replied(p, buf, x).world))
    ensures Grown(p, Zeros(BUF_SIZE), head.world)
  {
    assert [] + Zeros(BUF_SIZE) == Zeros(BUF_SIZE);
  }

  function Ones(n: nat): (r: seq<Byte>)
    ensures |r| == n && forall i :: 0 <= i < n ==> r[i] == 1
  {
    seq(n, _ => 1)
  }

  /** After the first pass over a longer file. */
  lemma FirstPass(p: Phase, buf: nat, start: Ring) returns (x: Round, head: Ring)
    requires Ready(p, buf, start.world) && p.size > BUF_SIZE && start == NewRing(QUEUE_DEPTH, start.world)
    ensures Looped(p, buf, start, [x], BUF_SIZE, 1, head) && FullRounds([x]) && SaneHead(p, buf, 1, head)
    ensures head.sq == [Sqe(Send(p.sock, buf, BUF_SIZE), false)] && head.flying == [] && head.cq == []
    ensures head.world.outbox == start.world.outbox
  {
    hide Looped, Follows, Settled, FullRound, Sane, Runs, Submit, Cleared, Terminated;
    StartSane(p, buf, start);
    var x0 := LazyRound(p, buf, 0, 0, start, []);
    var batchCount;
    x, batchCount, head := LazyHead(p, buf, x0, []);
    FirstHead(p, buf, x0);
    StoredAside(p, buf, BUF_SIZE, Replied(p, buf, x0).world);
    LoopedMore(p, buf, start, [], x, BUF_SIZE, batchCount, head);
    assert [] + [x] == [x];
  }

  /** After the second pass the socket was sent zeros. */
  lemma SecondHead(p: Phase, buf: nat, head: Ring) returns (y: Round, batchCount: nat, head': Ring)
    requires SaneHead(p, buf, 1, head) && p.size > BUF_SIZE && head.world.outbox[p.sock] == []
    requires head.sq == [Sqe(Send(p.sock, buf, BUF_SIZE), false)] && head.flying == [] && head.cq == []
    ensures y.offset == BUF_SIZE && y.batchCount == 1 && y.head == head && y.taken.res > 0
    ensures Follows(p, buf, y, y.offset + y.taken.res, batchCount, head') && FullRound(y)
    ensures SaneHead(p, buf, batchCount, head') && Grown(p, Zeros(BUF_SIZE), head'.world)
  {
    hide Looped, Follows, Settled, FullRound, Sane, Runs, Submit, Cleared, Terminated;
    SaneReady(p, buf, 1, head);
    var y0 := LazyRound(p, buf, BUF_SIZE, 1, head, []);
    y, batchCount, head' := LazyHead(p, buf, y0, []);
    SecondPass(p, buf, y0);
    SentZeros(p, buf, y0, head');
  }

  /** A file of more than one chunk: the first chunk is replaced by zeros. */
  lemma LongFileFails(p: Phase, buf: nat) returns (start: Ring, rounds: seq<Round>, offset: nat, last: Round,
                                                   posted: seq<Cqe>, w: World)
    requires p.Sending? && p.size > BUF_SIZE
    ensures Ready(p, buf, start.world) && start.depth == QUEUE_DEPTH
    ensures SendRun(p, buf, start, rounds, offset, last, posted, w) && FullRun(p, rounds, offset, last, posted)
    ensures start.world.outbox[p.sock] == [] && start.world.files[p.fileFd][0] == 1
    ensures Grown(p, Zeros(BUF_SIZE), w)
  {
    hide Looped, RoundOk, Follows, SendRun, FullRun, FullRound, SaneHead, Grown;
    var w0 := World(Zeros(buf + BUF_SIZE), map[p.fileFd := Ones(p.size)], map[p.sock := []], map[]);
    start := NewRing(QUEUE_DEPTH, w0);
    var x, head := FirstPass(p, buf, start);
    var y, batchCount, head' := SecondHead(p, buf, head);
    LoopedMore(p, buf, start, [x], y, y.offset + y.taken.res, batchCount, head');
    assert FullRound(x) by { assert [x][0] == x; }
    assert FullRounds([x] + [y]);
    rounds, offset, last, posted, w :=
      Finish(p, buf, start, [x] + [y], y.offset + y.taken.res, batchCount, head', Zeros(BUF_SIZE));
  }

  lemma SaneReady(p: Phase, buf: int, batchCount: nat, head: Ring)
    requires SaneHead(p, buf, batchCount, head)
    ensures Ready(p, buf, head.world) && Wf(head)
  {
  }

  /** The file is sure to arrive, even from a kernel that completes everything in full, exactly if
      it fits the buffer. */
  lemma AlwaysArrivesIff(fileFd: int, sock: int, size: nat, buf: nat)
    ensures AlwaysArrives(Sending(fileFd, sock, size), buf) <==> size <= BUF_SIZE
  {
    hide SendRun, FullRun;
    var p := Sending(fileFd, sock, size);
    if size <= BUF_SIZE {
      forall start: Ring, rounds, offset, last, posted, w |
        Ready(p, buf, start.world) && start.depth == QUEUE_DEPTH
        && SendRun(p, buf, start, rounds, offset, last, posted, w) && FullRun(p, rounds, offset, last, posted)
        ensures sock in w.outbox && w.outbox[sock] == start.world.outbox[sock] + start.world.files[fileFd]
      {
        ShortFileArrives(p, buf, start, rounds, offset, last, posted, w);
      }
    } else {
      var start, rounds, offset, last, posted, w := LongFileFails(p, buf);
      assert w.outbox[sock][0] == 0;
      assert (start.world.outbox[sock] + start.world.files[fileFd])[0] == 1;
    }
  }
}
