/** The client that waits for one completion per request while batches of further requests
    build up (iouring_hotpatch/uring_client copy.c). */
module MixedClient {
  import opened Basics
  import opened World
  import opened Uring

  const BUF_SIZE := 4
  const QUEUE_DEPTH := 4096
  const BATCH := 512

  /** Requests not yet accounted for: queued, in flight, or completed and not taken. */
  function Open(r: Ring): nat {
    |r.sq| + Outstanding(r)
  }

  function Cleared(w: World, buf: int): World {
    if 0 <= buf && buf + BUF_SIZE <= |w.mem| then w.(mem := Overwrite(w.mem, buf, Zeros(BUF_SIZE))) else w
  }

  function Terminated(w: World, at: int): World {
    if 0 <= at < |w.mem| then w.(mem := w.mem[at := 0]) else w
  }

  /** The two loops differ in what they request, what they answer a completion with, and what
      they store into the buffer themselves. */
  datatype Phase = Sending(fileFd: int, sock: int, size: nat) | Receiving(sock: int, recvFd: int)

  function Request(p: Phase, buf: int, offset: nat): Op {
    match p
    case Sending(fileFd, _, size) =>
      Read(fileFd, buf, if offset + BUF_SIZE > size then Max(0, size - offset) else BUF_SIZE, offset)
    case Receiving(sock, _) => Recv(sock, buf, BUF_SIZE)
  }

  function Reply(p: Phase, buf: int, offset: nat, n: nat): Op {
    match p
    case Sending(_, sock, _) => Send(sock, buf, n)
    case Receiving(_, recvFd) => Write(recvFd, buf, n, offset)
  }

  /** One pass of a loop: the ring at its head, the ring as submitted, the completion taken, and
      those of the batch flush, if there was one. */
  datatype Round = Round(offset: nat, batchCount: nat, head: Ring, submitted: Ring, sched: seq<Choice>, taken: Cqe,
                         flushed: seq<Cqe>)

  /** The request joins what is queued, once the send loop has cleared the buffer; the wait takes
      the oldest completion there is. */
  ghost predicate RoundOk(p: Phase, buf: int, x: Round) {
    && Open(x.head) == x.batchCount < BATCH
    && (p.Sending? ==> x.offset < p.size)
    && x.submitted == x.head.(sq := x.head.sq + [Sqe(Request(p, buf, x.offset), false)],
                              world := if p.Sending? then Cleared(x.head.world, buf) else x.head.world)
    && Runs(Submit(x.submitted), x.sched).cq != []
    && x.taken == Runs(Submit(x.submitted), x.sched).cq[0]
  }

  function AfterWait(x: Round): Ring
    requires Runs(Submit(x.submitted), x.sched).cq != []
  {
    var r := Runs(Submit(x.submitted), x.sched);
    r.(cq := r.cq[1..])
  }

  /** The send loop ends the text it read with a zero. */
  function Stored(p: Phase, buf: int, n: int, w: World): World {
    if p.Sending? then Terminated(w, buf + n) else w
  }

  /** The ring once the reply to the completion is queued. */
  function Replied(p: Phase, buf: int, x: Round): Ring
    requires Runs(Submit(x.submitted), x.sched).cq != [] && x.taken.res > 0
  {
    AfterWait(x).(sq := [Sqe(Reply(p, buf, x.offset, x.taken.res), false)])
  }

  /** The next loop head: the reply is queued, and after 512 replies everything is flushed and
      reaped. */
  ghost predicate Follows(p: Phase, buf: int, x: Round, offset: nat, batchCount: nat, head: Ring) {
    && RoundOk(p, buf, x) && x.taken.res > 0
    && offset == x.offset + x.taken.res
    && var full := Replied(p, buf, x);
       if x.batchCount + 1 < BATCH then
         && batchCount == x.batchCount + 1 && x.flushed == []
         && head == full.(world := Stored(p, buf, x.taken.res, full.world))
       else
         batchCount == 0 && FlushedTo(p, buf, x.taken.res, full, x.flushed, head)
  }

  ghost predicate FlushedTo(p: Phase, buf: int, n: int, full: Ring, flushed: seq<Cqe>, head: Ring) {
    var w := Replay(flushed, full.world);
    Settled(Submit(full), flushed, w) && head == NewRing(full.depth, Stored(p, buf, n, w))
  }

  /** A whole run of a loop from `start` up to a loop head. */
  ghost predicate Looped(p: Phase, buf: int, start: Ring, rounds: seq<Round>, offset: nat, batchCount: nat, head: Ring) {
    && Idle(start)
    && (forall i :: 0 < i < |rounds| ==>
          Follows(p, buf, rounds[i - 1], rounds[i].offset, rounds[i].batchCount, rounds[i].head))
    && (if rounds == [] then offset == 0 && batchCount == 0 && head == start
        else Follows(p, buf, rounds[|rounds| - 1], offset, batchCount, head))
    && (rounds != [] ==> rounds[0].offset == 0 && rounds[0].batchCount == 0 && rounds[0].head == start)
  }

  /** A run of the send phase from `start` to its end in `w`: at the end of the file, or at a
      completion that moved nothing. */
  ghost predicate SendRun(p: Phase, buf: int, start: Ring, rounds: seq<Round>, offset: nat, last: Round,
                          posted: seq<Cqe>, w: World)
    requires p.Sending?
  {
    && Looped(p, buf, start, rounds, offset, last.batchCount, last.head)
    && if offset < p.size then
         && RoundOk(p, buf, last) && last.taken.res <= 0 && last.offset == offset
         && Settled(Submit(AfterWait(last)), posted, w)
       else Settled(Submit(last.head), posted, w)
  }

  /** A run of the receive phase, up to a completion that moved nothing. */
  ghost predicate RecvRun(p: Phase, buf: int, start: Ring, rounds: seq<Round>, offset: nat, last: Round,
                          posted: seq<Cqe>, w: World)
  {
    && Looped(p, buf, start, rounds, offset, last.batchCount, last.head)
    && RoundOk(p, buf, last) && last.taken.res <= 0 && last.offset == offset
    && Settled(Submit(AfterWait(last)), posted, w)
  }

  lemma LoopedMore(p: Phase, buf: int, start: Ring, rounds: seq<Round>, x: Round, offset: nat, batchCount: nat, head: Ring)
    requires Looped(p, buf, start, rounds, x.offset, x.batchCount, x.head) && Follows(p, buf, x, offset, batchCount, head)
    ensures Looped(p, buf, start, rounds + [x], offset, batchCount, head)
  {
    hide Follows;
  }

  /** The sum of the results the first `n` rounds took. */
  function Moved(rounds: seq<Round>, n: nat): int
    requires n <= |rounds|
  {
    if n == 0 then 0 else Moved(rounds, n - 1) + rounds[n - 1].taken.res
  }

  /** Round `i` of the receive loop: it asks for 4 bytes, takes a result, and queues a write of that
      many bytes behind all that earlier rounds took. */
  ghost predicate Received(rounds: seq<Round>, i: nat, sock: int, recvFd: int, buf: int)
    requires i < |rounds|
  {
    var x := rounds[i];
    && x.submitted.sq == x.head.sq + [Sqe(Recv(sock, buf, 4), false)]
    && Runs(Submit(x.submitted), x.sched).cq != [] && x.taken == Runs(Submit(x.submitted), x.sched).cq[0]
    && x.taken.res > 0 && Moved(rounds, i) >= 0
    && var write := [Sqe(Write(recvFd, buf, x.taken.res, Moved(rounds, i)), false)];
       var full := Runs(Submit(x.submitted), x.sched).(cq := Runs(Submit(x.submitted), x.sched).cq[1..], sq := write);
       if x.batchCount + 1 == 512 then Settled(Submit(full), x.flushed, Replay(x.flushed, full.world))
       else i + 1 < |rounds| ==> rounds[i + 1].head == full
  }

  /** Round `i` of the send loop asks, with the buffer cleared, for the next 4 bytes of the file
      behind all that earlier rounds took. */
  ghost predicate SendAsks(rounds: seq<Round>, i: nat, fileFd: int, size: nat, buf: int)
    requires i < |rounds|
  {
    var x, mem := rounds[i], rounds[i].head.world.mem;
    && 0 <= Moved(rounds, i) < size
    && x.submitted.sq == x.head.sq + [Sqe(Read(fileFd, buf, Min(4, size - Moved(rounds, i)), Moved(rounds, i)), false)]
    && |x.submitted.world.mem| == |mem|
    && (forall p :: 0 <= p < |mem| ==>
          x.submitted.world.mem[p] == if 0 <= buf && buf + 4 <= |mem| && buf <= p < buf + 4 then 0 else mem[p])
  }

  /** It takes a result and queues a send of that many bytes, and ends the text with a zero. */
  ghost predicate SendQueues(rounds: seq<Round>, i: nat, sock: int, buf: int)
    requires i < |rounds|
  {
    var x := rounds[i];
    var r, at := Runs(Submit(x.submitted), x.sched), buf + x.taken.res;
    && r.cq != [] && x.taken == r.cq[0] && x.taken.res > 0
    && var send := [Sqe(Send(sock, buf, x.taken.res), false)];
       if x.batchCount + 1 == 512 then Settled(Submit(r.(cq := r.cq[1..], sq := send)), x.flushed, Replay(x.flushed, r.world))
       else i + 1 < |rounds| ==>
              rounds[i + 1].head
              == r.(cq := r.cq[1..], sq := send,
                    world := if 0 <= at < |r.world.mem| then r.world.(mem := r.world.mem[at := 0]) else r.world)
  }

  /** The rounds of a receive loop, written out. */
  lemma {:induction false} LoopReceives(p: Phase, buf: int, start: Ring, rounds: seq<Round>, offset: nat, batchCount: nat,
                                        head: Ring)
    requires p.Receiving? && Looped(p, buf, start, rounds, offset, batchCount, head)
    ensures offset == Moved(rounds, |rounds|)
    ensures forall i :: 0 <= i < |rounds| ==> Received(rounds, i, p.sock, p.recvFd, buf)
  {
    forall i: nat | i < |rounds| ensures Received(rounds, i, p.sock, p.recvFd, buf) {
      OffsetsAdd(p, buf, start, rounds, offset, batchCount, head, i);
      RoundFollows(p, buf, start, rounds, offset, batchCount, head, i);
    }
    OffsetsAdd(p, buf, start, rounds, offset, batchCount, head, |rounds|);
  }

  lemma {:induction false} SendAsksOf(p: Phase, buf: int, rounds: seq<Round>, i: nat)
    requires p.Sending? && i < |rounds| && RoundOk(p, buf, rounds[i]) && rounds[i].offset == Moved(rounds, i)
    ensures SendAsks(rounds, i, p.fileFd, p.size, buf)
  {
    hide Runs, Submit;
  }

  lemma {:induction false} SendQueuesOf(p: Phase, buf: int, rounds: seq<Round>, i: nat, offset: nat, batchCount: nat, head: Ring)
    requires p.Sending? && i < |rounds| && Follows(p, buf, rounds[i], offset, batchCount, head)
    requires i + 1 < |rounds| ==> head == rounds[i + 1].head
    ensures SendQueues(rounds, i, p.sock, buf)
  {
    hide Runs, Submit, Settled, Cleared, Replay;
  }

  /** The rounds of a send loop, written out. */
  lemma {:induction false} LoopSends(p: Phase, buf: int, start: Ring, rounds: seq<Round>, offset: nat, batchCount: nat,
                                     head: Ring)
    requires p.Sending? && Looped(p, buf, start, rounds, offset, batchCount, head)
    ensures offset == Moved(rounds, |rounds|)
    ensures forall i :: 0 <= i < |rounds| ==>
              SendAsks(rounds, i, p.fileFd, p.size, buf) && SendQueues(rounds, i, p.sock, buf)
  {
    hide Looped, SendAsks, SendQueues;
    forall i: nat | i < |rounds|
      ensures SendAsks(rounds, i, p.fileFd, p.size, buf) && SendQueues(rounds, i, p.sock, buf)
    {
      OffsetsAdd(p, buf, start, rounds, offset, batchCount, head, i);
      RoundFollows(p, buf, start, rounds, offset, batchCount, head, i);
      SendAsksOf(p, buf, rounds, i);
      if i + 1 < |rounds| {
        SendQueuesOf(p, buf, rounds, i, rounds[i + 1].offset, rounds[i + 1].batchCount, rounds[i + 1].head);
      } else {
        SendQueuesOf(p, buf, rounds, i, offset, batchCount, head);
      }
    }
    OffsetsAdd(p, buf, start, rounds, offset, batchCount, head, |rounds|);
  }

  lemma {:induction false} RoundFollows(p: Phase, buf: int, start: Ring, rounds: seq<Round>, offset: nat, batchCount: nat, head: Ring, i: nat)
    requires Looped(p, buf, start, rounds, offset, batchCount, head) && i < |rounds|
    ensures if i + 1 < |rounds|
            then Follows(p, buf, rounds[i], rounds[i + 1].offset, rounds[i + 1].batchCount, rounds[i + 1].head)
            else Follows(p, buf, rounds[i], offset, batchCount, head)
  {
    hide Follows;
    if i + 1 < |rounds| {
      var j := i + 1;
      assert Follows(p, buf, rounds[j - 1], rounds[j].offset, rounds[j].batchCount, rounds[j].head);
    }
  }

  lemma {:induction false} OffsetsAdd(p: Phase, buf: int, start: Ring, rounds: seq<Round>, offset: nat, batchCount: nat,
                                      head: Ring, n: nat)
    requires Looped(p, buf, start, rounds, offset, batchCount, head) && n <= |rounds|
    ensures Moved(rounds, n) == if n < |rounds| then rounds[n].offset else offset
  {
    if n > 0 {
      OffsetsAdd(p, buf, start, rounds, offset, batchCount, head, n - 1);
      RoundFollows(p, buf, start, rounds, offset, batchCount, head, n - 1);
    }
  }

  /** A send that is submitted along with the next read is submitted with a cleared buffer: unless
      that read overtakes it, it sends zeros, whatever was read for it. */
  lemma LateSendSendsZeros(p: Phase, buf: nat, x: Round, n: nat, f: Fault)
    requires p.Sending? && RoundOk(p, buf, x) && x.batchCount == 1 && x.head.sq == [Sqe(Send(p.sock, buf, n), false)]
    requires n <= BUF_SIZE && buf + BUF_SIZE <= |x.head.world.mem| && p.sock in x.head.world.outbox && Wf(x.head)
    ensures var start := Submit(x.submitted);
            var sent := Max(0, Result(Send(p.sock, buf, n), f, start.world));
            KernelStep(start, Choice(0, f)).world.outbox[p.sock] == x.head.world.outbox[p.sock] + Zeros(sent)
  {
    var send, read := Send(p.sock, buf, n), Request(p, buf, x.offset);
    var start := Submit(x.submitted);
    Alone(x.head);
    GapHead(send, read, Links(x.submitted.sq));
    assert Queued(x.submitted.sq) == [send, read];
    assert [] + Chains([send, read], Links(x.submitted.sq)) == [[send], [read]];
    assert start.flying == [[send], [read]];
    SendsZeros(start.world, p.sock, buf, n, f);
  }

  lemma Alone(r: Ring)
    requires |r.sq| == 1 && Open(r) == 1 && Wf(r)
    ensures r.flying == []
  {
    FlattenNonEmpty(r.flying);
  }

  lemma SendsZeros(w: World, sock: int, buf: nat, n: nat, f: Fault)
    requires n <= BUF_SIZE && buf + BUF_SIZE <= |w.mem| && sock in w.outbox
    requires forall i :: buf <= i < buf + BUF_SIZE ==> w.mem[i] == 0
    ensures var k := Result(Send(sock, buf, n), f, w);
            Transfer(Send(sock, buf, n), k, w).outbox[sock] == w.outbox[sock] + Zeros(Max(0, k))
  {
    var k := Max(0, Result(Send(sock, buf, n), f, w));
    assert w.mem[buf..buf + k] == Zeros(k);
    assert w.outbox[sock] + [] == w.outbox[sock];
  }

  lemma GapHead(a: Op, b: Op, link: seq<bool>)
    requires |link| == 2 && !link[0]
    ensures Chains([a, b], link) == [[a], [b]]
  {
    assert [a, b][1..] == [b] && [b][1..] == [];
    AllLinkedIsOneChain([b], link[1..]);
  }

  lemma StartLoop(p: Phase, buf: int, r: Ring)
    requires Idle(r)
    ensures Wf(r) && Open(r) == 0 && Looped(p, buf, r, [], 0, 0, r)
  {
  }

  lemma Requested(p: Phase, buf: int, offset: nat, batchCount: nat, head: Ring, submitted: Ring)
    requires Wf(head) && Open(head) == batchCount
    requires submitted == head.(sq := submitted.sq, world := submitted.world) && |submitted.sq| == |head.sq| + 1
    ensures Wf(submitted) && Open(submitted) == batchCount + 1
  {
  }

  lemma Waited(p: Phase, buf: int, x: Round)
    requires Open(x.head) == x.batchCount < BATCH && (p.Sending? ==> x.offset < p.size)
    requires x.submitted == x.head.(sq := x.head.sq + [Sqe(Request(p, buf, x.offset), false)],
                                    world := if p.Sending? then Cleared(x.head.world, buf) else x.head.world)
    requires Runs(Submit(x.submitted), x.sched).cq != [] && x.taken == Runs(Submit(x.submitted), x.sched).cq[0]
    ensures RoundOk(p, buf, x)
  {
  }

  lemma ReplyFollows(p: Phase, buf: int, x: Round, full: Ring, flushed: seq<Cqe>, offset: nat, batchCount: nat, head: Ring)
    requires RoundOk(p, buf, x) && x.taken.res > 0 && offset == x.offset + x.taken.res
    requires full == Runs(Submit(x.submitted), x.sched).(
                       cq := Runs(Submit(x.submitted), x.sched).cq[1..],
                       sq := [Sqe(Reply(p, buf, x.offset, x.taken.res), false)])
    requires batchCount == if x.batchCount + 1 < BATCH then x.batchCount + 1 else 0
    requires if x.batchCount + 1 < BATCH then
               flushed == [] && head == full.(world := Stored(p, buf, x.taken.res, full.world))
             else FlushedTo(p, buf, x.taken.res, full, flushed, head)
    ensures Follows(p, buf, x.(flushed := flushed), offset, batchCount, head)
  {
  }

  lemma FlushStored(p: Phase, buf: int, n: int, full: Ring, posted: seq<Cqe>, w: World, head: Ring)
    requires Settled(Submit(full), posted, w) && head == NewRing(full.depth, Stored(p, buf, n, w))
    ensures FlushedTo(p, buf, n, full, posted, head)
  {
  }

  lemma NothingSettles(r: Ring)
    requires r.sq == [] && r.flying == []
    ensures Settled(Submit(r), [], r.world)
  {
    assert Submit(r).flying == [];
    assert Merge<Op>([], []);
    assert PostedBy(Submit(r), []) == [] && Runs(Submit(r), []).flying == [];
  }

  lemma SettledReplay(r: Ring, posted: seq<Cqe>, w: World)
    requires Settled(r, posted, w)
    ensures w == Replay(posted, r.world)
  {
  }

  lemma NothingToRun(r: Ring, posted: seq<Cqe>, w: World)
    requires r.sq == [] && r.flying == [] && Settled(Submit(r), posted, w)
    ensures w == r.world
  {
    MergeKeepsAll(Submit(r).flying, Ops(posted));
    assert |multiset(Ops(posted))| == |posted|;
  }

  lemma Replying(waited: Ring, head: Ring)
    requires Wf(waited) && waited.sq == [] && head == waited.(sq := head.sq, world := head.world)
    ensures Wf(head) && Open(head) == Open(waited) + |head.sq|
  {
  }

  lemma Aside(r: Ring, r': Ring)
    requires r' == r.(world := r'.world)
    ensures Wf(r') == Wf(r) && Open(r') == Open(r) && Idle(r') == Idle(r)
    ensures Idle(r) ==> Wf(r) && Open(r) == 0
  {
  }

  lemma NothingOpen(r: Ring)
    requires Wf(r) && Open(r) == 0
    ensures Idle(r)
  {
    FlattenNonEmpty(r.flying);
  }

  /** Submit what is queued and take whichever completion comes first. */
  method SubmitAndWaitAny(r: Ring) returns (r': Ring, c: Cqe, ghost sched: seq<Choice>)
    requires Wf(r) && r.sq != []
    ensures Wf(r') && r'.sq == [] && r'.depth == r.depth && Open(r') == Open(r) - 1
    ensures Runs(Submit(r), sched).cq != [] && c == Runs(Submit(r), sched).cq[0]
    ensures r' == Runs(Submit(r), sched).(cq := Runs(Submit(r), sched).cq[1..])
  {
    SubmitCounts(r);
    r', c, sched := WaitCqe(Submit(r));
    RunsConserve(Submit(r), sched);
    RunsCount(Runs(Submit(r), sched), 1);
  }

  /** With nothing else open, the completion is that of the request itself. */
  lemma OwnCompletion(r: Ring, op: Op, sched: seq<Choice>) returns (f: Fault)
    requires r.sq == [Sqe(op, false)] && r.flying == [] && r.cq == []
    requires Runs(Submit(r), sched).cq != []
    ensures var res := Result(op, f, r.world);
            Runs(Submit(r), sched) == NewRing(r.depth, Transfer(op, res, r.world)).(cq := [Cqe(op, res)])
  {
    AllLinkedIsOneChain(Queued(r.sq), Links(r.sq));
    assert Queued(r.sq) == [op];
    f := LoneRequest(Submit(r), op, sched);
  }

  /** Every schedule makes the wait return the completion of `op`. */
  ghost predicate CertainlyOwn(r: Ring, op: Op) {
    forall sched :: Runs(Submit(r), sched).cq != [] ==> Runs(Submit(r), sched).cq[0].op == op
  }

  /** The completion the wait takes is certain to be that of the newest request exactly when
      nothing else is open. */
  lemma OwnCompletionIff(r: Ring, op: Op)
    requires Wf(r) && r.sq != [] && r.sq[|r.sq| - 1].op == op
    requires forall i :: 0 <= i < |r.sq| ==> !r.sq[i].link
    requires forall i :: 0 <= i < |r.sq| - 1 ==> r.sq[i].op != op
    requires forall i :: 0 <= i < |r.flying| ==> r.flying[i][0] != op
    requires forall i :: 0 <= i < |r.cq| ==> r.cq[i].op != op
    ensures CertainlyOwn(r, op) <==> Open(r) == 1
  {
    FlattenNonEmpty(r.flying);
    if Open(r) == 1 {
      assert r.sq == [Sqe(op, false)];
      forall sched | Runs(Submit(r), sched).cq != [] ensures Runs(Submit(r), sched).cq[0].op == op {
        var f := OwnCompletion(r, op, sched);
      }
    } else {
      var sched: seq<Choice> := if r.cq != [] then [] else [Choice(0, Fine)];
      OthersFirst(r, op, sched);
    }
  }

  lemma OthersFirst(r: Ring, op: Op, sched: seq<Choice>)
    requires Wf(r) && r.sq != [] && Open(r) != 1
    requires forall i :: 0 <= i < |r.sq| - 1 ==> r.sq[i].op != op
    requires forall i :: 0 <= i < |r.flying| ==> r.flying[i][0] != op
    requires forall i :: 0 <= i < |r.cq| ==> r.cq[i].op != op
    requires sched == if r.cq != [] then [] else [Choice(0, Fine)]
    ensures Runs(Submit(r), sched).cq != [] && Runs(Submit(r), sched).cq[0].op != op
  {
    if r.cq == [] {
      FirstChain(r);
      FlattenNonEmpty(r.flying);
      assert sched[1..] == [];
      assert Runs(Submit(r), sched) == KernelStep(Submit(r), sched[0]);
    }
  }

  lemma FirstChain(r: Ring)
    requires Wf(r) && r.sq != []
    ensures Submit(r).flying != []
    ensures Submit(r).flying[0][0] == if r.flying != [] then r.flying[0][0] else r.sq[0].op
  {
    var chains := Chains(Queued(r.sq), Links(r.sq));
    assert chains[0][0] == Flatten(chains)[0];
  }

  /** The phase that reads the file and sends it.  A wait may take the completion of an earlier
      send, and its result is then used as the length of the read; still the open requests
      number `batchCount` at every loop head, every peek finds a completion, and none is left. */
  method SendPhase(r: Ring, fileFd: int, sock: int, buf: int, size: nat)
    returns (r': Ring, fileOffset: nat, ghost rounds: seq<Round>, ghost last: Round, ghost posted: seq<Cqe>)
    requires Idle(r) && r.depth == QUEUE_DEPTH
    ensures r' == NewRing(QUEUE_DEPTH, r'.world)
    ensures SendRun(Sending(fileFd, sock, size), buf, r, rounds, fileOffset, last, posted, r'.world)
    ensures fileOffset == Moved(rounds, |rounds|) && (fileOffset < size ==> last.taken.res <= 0 && last.offset == fileOffset)
    ensures forall i :: 0 <= i < |rounds| ==>
              SendAsks(rounds, i, fileFd, size, buf) && SendQueues(rounds, i, sock, buf)
  {
    hide Looped, RoundOk, Follows, Outstanding, Wf, Runs, Submit, Settled, FlushedTo;
    ghost var p := Sending(fileFd, sock, size);
    StartLoop(p, buf, r);
    r', fileOffset, rounds, posted := r, 0, [], [];
    var batchCount := 0;
    last := Round(0, 0, r, r, [], Cqe(Fsync(0), 0), []);
    while fileOffset < size
      invariant Wf(r') && r'.depth == QUEUE_DEPTH && |r'.sq| <= 1
      invariant Open(r') == batchCount < BATCH
      invariant Looped(p, buf, r, rounds, fileOffset, batchCount, r')
      decreases size - fileOffset
    {
      ghost var head := r';
      r' := r'.(world := Cleared(r'.world, buf));
      var bytesToRead := BUF_SIZE;
      if fileOffset + BUF_SIZE > size {
        bytesToRead := size - fileOffset;
      }
      r' := Enqueue(r', Read(fileFd, buf, bytesToRead, fileOffset));
      ghost var submitted := r';
      assert Read(fileFd, buf, bytesToRead, fileOffset) == Request(p, buf, fileOffset);
      var c;
      ghost var sched;
      Requested(p, buf, fileOffset, batchCount, head, submitted);
      r', c, sched := SubmitAndWaitAny(r');
      ghost var x := Round(fileOffset, batchCount, head, submitted, sched, c, []);
      Waited(p, buf, x);
      if c.res <= 0 {
        last := x;
        break;
      }
      ghost var waited := r';
      var bytesRead := c.res;
      fileOffset := fileOffset + bytesRead;
      r' := Enqueue(r', Send(sock, buf, bytesRead));
      batchCount := batchCount + 1;
      Replying(waited, r');
      ghost var full := r';
      posted := [];
      if batchCount >= BATCH {
        r', posted := SubmitAndPeek(r', batchCount);
        batchCount := 0;
      }
      ghost var unmarked := r';
      r' := r'.(world := Terminated(r'.world, buf + bytesRead));
      Aside(unmarked, r');
      if batchCount == 0 {
        FlushStored(p, buf, bytesRead, full, posted, unmarked.world, r');
      }
      ReplyFollows(p, buf, x, full, posted, fileOffset, batchCount, r');
      x := x.(flushed := posted);
      LoopedMore(p, buf, r, rounds, x, fileOffset, batchCount, r');
      rounds := rounds + [x];
    }
    if fileOffset >= size {
      last := last.(batchCount := batchCount, head := r');
    }
    if batchCount > 0 {
      r', posted := SubmitAndPeek(r', batchCount);
    } else {
      NothingOpen(r');
      NothingSettles(r');
      posted := [];
    }
    LoopSends(p, buf, r, rounds, fileOffset, last.batchCount, last.head);
  }

  /** Bytes still to come on the socket. */
  function Left(w: World, sock: int): nat {
    if sock in w.inbox then |w.inbox[sock]| else 0
  }

  lemma TransferLeft(op: Op, k: int, w: World, sock: int)
    ensures Left(Transfer(op, k, w), sock) <= Left(w, sock)
  {
  }

  lemma RunsLeft(r: Ring, sched: seq<Choice>, sock: int)
    ensures Left(Runs(r, sched).world, sock) <= Left(r.world, sock)
    decreases |sched|
  {
    if sched != [] {
      var c := sched[0];
      if c.pick < |r.flying| && r.flying[c.pick] != [] {
        var op := r.flying[c.pick][0];
        TransferLeft(op, Result(op, c.fault, r.world), r.world, sock);
      }
      RunsLeft(KernelStep(r, c), sched[1..], sock);
    }
  }

  /** The phase that receives the answer and writes it.  It ends for every kernel behaviour:
      after each flush the next wait takes the recv's own completion. */
  method RecvPhase(r: Ring, sock: int, recvFd: int, buf: int)
    returns (r': Ring, recvFileOffset: nat, ghost rounds: seq<Round>, ghost last: Round, ghost posted: seq<Cqe>)
    requires Idle(r) && r.depth == QUEUE_DEPTH
    ensures r' == NewRing(QUEUE_DEPTH, r'.world)
    ensures RecvRun(Receiving(sock, recvFd), buf, r, rounds, recvFileOffset, last, posted, r'.world)
    ensures recvFileOffset == Moved(rounds, |rounds|) && last.taken.res <= 0 && last.offset == recvFileOffset
    ensures forall i :: 0 <= i < |rounds| ==> Received(rounds, i, sock, recvFd, buf)
  {
    hide Looped, RoundOk, Follows, Outstanding, Wf, Runs, Submit, Settled, FlushedTo, Left;
    ghost var p := Receiving(sock, recvFd);
    StartLoop(p, buf, r);
    r', recvFileOffset, rounds, posted := r, 0, [], [];
    var batchCount := 0;
    while true
      invariant Wf(r') && r'.depth == QUEUE_DEPTH && |r'.sq| <= 1
      invariant Open(r') == batchCount < BATCH
      invariant Looped(p, buf, r, rounds, recvFileOffset, batchCount, r')
      decreases Left(r'.world, sock), if batchCount == 0 then 0 else BATCH - batchCount
    {
      ghost var head := r';
      r' := Enqueue(r', Recv(sock, buf, BUF_SIZE));
      ghost var submitted := r';
      var c;
      ghost var sched;
      Requested(p, buf, recvFileOffset, batchCount, head, submitted);
      r', c, sched := SubmitAndWaitAny(r');
      ghost var x := Round(recvFileOffset, batchCount, head, submitted, sched, c, []);
      Waited(p, buf, x);
      if c.res <= 0 {
        last := x;
        break;
      }
      ghost var waited := r';
      LeftShrinks(p, buf, x, waited);
      var bytesReceived := c.res;
      r' := Enqueue(r', Write(recvFd, buf, bytesReceived, recvFileOffset));
      recvFileOffset := recvFileOffset + bytesReceived;
      batchCount := batchCount + 1;
      Replying(waited, r');
      ghost var full := r';
      posted := [];
      if batchCount >= BATCH {
        r', posted := SubmitAndPeek(r', batchCount);
        SettledLeft(full, posted, r'.world, sock);
        FlushStored(p, buf, bytesReceived, full, posted, r'.world, r');
        batchCount := 0;
      }
      Aside(r', r');
      ReplyFollows(p, buf, x, full, posted, recvFileOffset, batchCount, r');
      x := x.(flushed := posted);
      LoopedMore(p, buf, r, rounds, x, recvFileOffset, batchCount, r');
      rounds := rounds + [x];
    }
    if batchCount > 0 {
      r', posted := SubmitAndPeek(r', batchCount);
    } else {
      NothingOpen(r');
      NothingSettles(r');
      posted := [];
    }
    LoopReceives(p, buf, r, rounds, recvFileOffset, last.batchCount, last.head);
  }

  /** No wait puts bytes back into the stream, and the first wait behind a flush takes some out. */
  lemma LeftShrinks(p: Phase, buf: int, x: Round, waited: Ring)
    requires p.Receiving? && Wf(x.head) && RoundOk(p, buf, x) && x.taken.res > 0
    requires waited == Runs(Submit(x.submitted), x.sched).(cq := Runs(Submit(x.submitted), x.sched).cq[1..])
    ensures Left(waited.world, p.sock) <= Left(x.head.world, p.sock)
    ensures x.batchCount == 0 ==> Left(waited.world, p.sock) < Left(x.head.world, p.sock)
  {
    hide Runs, Wf, Left;
    RunsLeft(Submit(x.submitted), x.sched, p.sock);
    if x.batchCount == 0 {
      NothingOpen(x.head);
      var op := Recv(p.sock, buf, BUF_SIZE);
      assert x.submitted.sq == [Sqe(op, false)];
      var f := OwnCompletion(x.submitted, op, x.sched);
      RecvShrinks(op, f, x.head.world);
    }
  }

  lemma RecvShrinks(op: Op, f: Fault, w: World)
    requires op.Recv? && Result(op, f, w) > 0
    ensures Left(Transfer(op, Result(op, f, w), w), op.fd) < Left(w, op.fd)
  {
  }

  lemma SettledLeft(r: Ring, posted: seq<Cqe>, w: World, sock: int)
    requires Settled(Submit(r), posted, w)
    ensures Left(w, sock) <= Left(r.world, sock)
  {
    ReplayLeft(posted, r.world, sock);
  }

  lemma ReplayLeft(posted: seq<Cqe>, w: World, sock: int)
    ensures Left(Replay(posted, w), sock) <= Left(w, sock)
  {
    if posted != [] {
      TransferLeft(posted[0].op, posted[0].res, w, sock);
      ReplayLeft(posted[1..], Transfer(posted[0].op, posted[0].res, w), sock);
    }
  }
}
