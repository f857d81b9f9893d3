/** What the mixed client saves when every wait takes the completion of a recv
    (iouring_hotpatch/uring_client copy.c). */
module OwnRecvs {
  import opened Basics
  import opened World
  import opened Uring
  import opened UnlinkedBatches
  import opened MixedClient
  import opened MixedSaving

  // ---------- The writes of a batch, in any order ----------

  /** The write of chunk `i` of a stream. */
  function WriteOf(p: Phase, buf: int, size: nat, i: nat): Op
    requires p.Receiving? && 4 * i < size
  {
    Write(p.recvFd, buf, Min(4, size - 4 * i), 4 * i)
  }

  function Writes(p: Phase, buf: int, size: nat, from: nat, to: nat): (r: seq<Op>)
    requires p.Receiving? && from <= to && 4 * to < size + 4
    ensures |r| == to - from && forall i :: from <= i < to ==> r[i - from] == WriteOf(p, buf, size, i)
  {
    seq(to - from, i requires 0 <= i < to - from => WriteOf(p, buf, size, from + i))
  }

  /** A write that stores its part of `image`, behind `lo`. */
  predicate Fits(p: Phase, buf: int, image: seq<Byte>, lo: nat, op: Op, mem: seq<Byte>)
    requires p.Receiving? && 0 <= buf && buf + 4 <= |mem|
  {
    && op.Write? && op.fd == p.recvFd && op.buf == buf && 0 < op.n <= 4 && lo <= op.off && op.off + op.n <= |image|
    && image[op.off..op.off + op.n] == mem[buf..buf + op.n]
  }

  /** What is written agrees with `image`, and so do bytes that did so before. */
  ghost predicate Towards(image: seq<Byte>, lo: nat, f: seq<Byte>, f': seq<Byte>) {
    && |f| <= |f'| <= |image|
    && forall j :: 0 <= j < |f| && (j < lo || f[j] == image[j]) ==> f'[j] == f[j]
  }

  ghost predicate Landed(image: seq<Byte>, op: Op, f: seq<Byte>) {
    op.Write? && 0 <= op.off && op.off + op.n <= |image| && op.off + op.n <= |f|
    && f[op.off..op.off + op.n] == image[op.off..op.off + op.n]
  }

  lemma {:induction false} OneLands(p: Phase, buf: int, image: seq<Byte>, lo: nat, op: Op, w: World)
    requires CanSave(p, buf, w) && Fits(p, buf, image, lo, op, w.mem) && lo <= |w.files[p.recvFd]| <= |image|
    ensures var w' := Do(op, w);
            && w' == w.(files := w'.files) && CanSave(p, buf, w')
            && Towards(image, lo, w.files[p.recvFd], w'.files[p.recvFd]) && Landed(image, op, w'.files[p.recvFd])
  {
    var f, data := w.files[p.recvFd], w.mem[buf..buf + op.n];
    assert Do(op, w).files[p.recvFd] == Splice(f, op.off, data);
    assert forall j :: op.off <= j < op.off + op.n ==> image[j] == image[op.off..op.off + op.n][j - op.off];
  }

  lemma LandedStays(image: seq<Byte>, lo: nat, op: Op, f: seq<Byte>, f': seq<Byte>)
    requires Landed(image, op, f) && Towards(image, lo, f, f')
    ensures Landed(image, op, f')
  {
    var from, to := op.off, op.off + op.n;
    forall j | from <= j < to ensures f'[j] == image[j] {
      assert f[from..to][j - from] == image[from..to][j - from];
    }
  }

  lemma {:induction false} AllLand(p: Phase, buf: int, image: seq<Byte>, lo: nat, order: seq<Op>, w: World)
    requires CanSave(p, buf, w) && lo <= |w.files[p.recvFd]| <= |image|
    requires forall i :: 0 <= i < |order| ==> Fits(p, buf, image, lo, order[i], w.mem)
    ensures var w' := DoAll(order, w);
            && w' == w.(files := w'.files) && CanSave(p, buf, w')
            && Towards(image, lo, w.files[p.recvFd], w'.files[p.recvFd])
            && forall i :: 0 <= i < |order| ==> Landed(image, order[i], w'.files[p.recvFd])
  {
    hide Do, Fits, Landed;
    if order != [] {
      var op, w1 := order[0], Do(order[0], w);
      OneLands(p, buf, image, lo, op, w);
      AllLand(p, buf, image, lo, order[1..], w1);
      var f1, f' := w1.files[p.recvFd], DoAll(order, w).files[p.recvFd];
      LandedStays(image, lo, op, f1, f');
      forall i | 0 <= i < |order| ensures Landed(image, order[i], f') {
        if i > 0 {
          assert order[i] == order[1..][i - 1];
        }
      }
    }
  }

  /** Chunks `from` to `to` written from one buffer, in any order. */
  lemma {:induction false} WritesLand(p: Phase, buf: int, size: nat, from: nat, to: nat, image: seq<Byte>, order: seq<Op>,
                                      w: World)
    requires CanSave(p, buf, w) && from <= to && 4 * to < size + 4
    requires |w.files[p.recvFd]| == Min(4 * from, size) && |image| == Min(4 * to, size)
    requires multiset(order) == multiset(Writes(p, buf, size, from, to))
    requires forall i :: from <= i < to ==> Fits(p, buf, image, |w.files[p.recvFd]|, WriteOf(p, buf, size, i), w.mem)
    ensures var f, w' := w.files[p.recvFd], DoAll(order, w);
            w' == w.(files := w'.files) && CanSave(p, buf, w') && w'.files[p.recvFd] == f + image[|f|..]
  {
    hide Fits, WriteOf, DoAll;
    var f, writes := w.files[p.recvFd], Writes(p, buf, size, from, to);
    forall i | 0 <= i < |order| ensures Fits(p, buf, image, |f|, order[i], w.mem) {
      assert order[i] in multiset(order);
      var k :| 0 <= k < |writes| && writes[k] == order[i];
      assert writes[k] == WriteOf(p, buf, size, from + k);
    }
    AllLand(p, buf, image, |f|, order, w);
    var f' := DoAll(order, w).files[p.recvFd];
    forall i | from <= i < to ensures Landed(image, WriteOf(p, buf, size, i), f') {
      assert writes[i - from] == WriteOf(p, buf, size, i);
      assert writes[i - from] in multiset(order);
      var k :| 0 <= k < |order| && order[k] == writes[i - from];
    }
    AllCovered(p, buf, size, from, to, image, f, f');
  }

  lemma Covered(p: Phase, buf: int, size: nat, from: nat, to: nat, image: seq<Byte>, f': seq<Byte>, j: nat)
    requires p.Receiving? && from <= to && 4 * to < size + 4 && |image| == Min(4 * to, size)
    requires forall i :: from <= i < to ==> Landed(image, WriteOf(p, buf, size, i), f')
    requires 4 * from <= j < |image|
    ensures j < |f'| && f'[j] == image[j]
  {
    var write := WriteOf(p, buf, size, j / 4);
    assert Landed(image, write, f');
    assert f'[write.off..write.off + write.n][j - write.off] == image[write.off..write.off + write.n][j - write.off];
  }

  lemma AllCovered(p: Phase, buf: int, size: nat, from: nat, to: nat, image: seq<Byte>, f: seq<Byte>, f': seq<Byte>)
    requires p.Receiving? && from <= to && 4 * to < size + 4 && |f| == Min(4 * from, size) && |image| == Min(4 * to, size)
    requires forall i :: from <= i < to ==> Landed(image, WriteOf(p, buf, size, i), f')
    requires Towards(image, |f|, f, f')
    ensures f' == f + image[|f|..]
  {
    if |f| < |image| {
      Covered(p, buf, size, from, to, image, f', |image| - 1);
    }
    forall j | |f| <= j < |image| ensures f'[j] == image[j] {
      Covered(p, buf, size, from, to, image, f', j);
    }
  }

  // ---------- What the buffer holds ----------

  /** The last position before `end` that goes to the same place in the buffer as `j`. */
  function LastOf(j: nat, end: nat): (r: nat)
    requires j < end
    ensures j <= r < end <= r + 4 && r % 4 == j % 4
  {
    end - 1 - (end - 1 - j) % 4
  }

  /** The end of the batch of 512 chunks that holds position `j`. */
  function EndOf(j: nat, size: nat): (r: nat)
    requires j < size
    ensures j < r <= size
  {
    Min(size, 2048 * (j / 2048 + 1))
  }

  /** What is saved of the first `n` bytes of a stream. */
  function Saved(s: seq<Byte>, n: nat): (r: seq<Byte>)
    requires n <= |s|
    ensures |r| == n
  {
    seq(n, j requires 0 <= j < n => s[LastOf(j, EndOf(j, |s|))])
  }

  ghost predicate BufferHolds(buf: int, s: seq<Byte>, offset: nat, mem: seq<Byte>) {
    && 0 <= buf && buf + 4 <= |mem| && offset <= |s|
    && forall i :: 0 <= i < offset && offset - 4 <= i ==> mem[buf + i % 4] == s[i]
  }

  lemma {:induction false} RecvLoads(p: Phase, buf: int, s: seq<Byte>, offset: nat, w: World)
    requires CanSave(p, buf, w) && BufferHolds(buf, s, offset, w.mem) && w.inbox[p.sock] == s[offset..]
    requires offset % 4 == 0 || offset == |s|
    ensures var recv, next := Recv(p.sock, buf, 4), Min(offset + 4, |s|);
            && Best(recv, w) == next - offset
            && CanSave(p, buf, Do(recv, w)) && Do(recv, w).files == w.files
            && Do(recv, w).inbox[p.sock] == s[next..] && BufferHolds(buf, s, next, Do(recv, w).mem)
  {
    var next := Min(offset + 4, |s|);
    if offset < |s| {
      forall i | 0 <= i < next && next - 4 <= i ensures i % 4 == if i < offset then i - offset + 4 else i - offset {
      }
    }
  }

  lemma {:induction false} ImageFits(p: Phase, buf: int, s: seq<Byte>, from: nat, to: nat, offset: nat, i: nat, mem: seq<Byte>)
    requires p.Receiving? && from <= i < to && 4 * to < |s| + 4 && offset == Min(4 * to, |s|)
    requires BufferHolds(buf, s, offset, mem)
    requires forall j :: 4 * from <= j < offset ==> EndOf(j, |s|) == offset
    ensures Fits(p, buf, Saved(s, offset), 4 * from, WriteOf(p, buf, |s|, i), mem)
  {
    hide LastOf, EndOf;
    var k, image := Min(4, |s| - 4 * i), Saved(s, offset);
    var part := image[4 * i..4 * i + k];
    forall t | 0 <= t < k ensures part[t] == mem[buf..buf + k][t] {
      ImageAt(buf, s, offset, i, t, mem);
    }
    assert part == mem[buf..buf + k];
  }

  lemma ImageAt(buf: int, s: seq<Byte>, offset: nat, i: nat, t: nat, mem: seq<Byte>)
    requires BufferHolds(buf, s, offset, mem) && t < 4 && 4 * i + t < offset && EndOf(4 * i + t, |s|) == offset
    ensures Saved(s, offset)[4 * i + t] == mem[buf + t]
  {
    hide LastOf, EndOf;
  }

  /** A batch written at its end, in any order. */
  lemma {:induction false} BatchLands(p: Phase, buf: int, s: seq<Byte>, from: nat, to: nat, offset: nat, order: seq<Op>, w: World)
    requires CanSave(p, buf, w) && from <= to && 4 * to < |s| + 4 && 4 * from <= |s| && offset == Min(4 * to, |s|)
    requires from % 512 == 0 && to - from <= 512 && (offset == |s| || to - from == 512)
    requires BufferHolds(buf, s, offset, w.mem) && w.files[p.recvFd] == Saved(s, 4 * from)
    requires multiset(order) == multiset(Writes(p, buf, |s|, from, to))
    ensures var w' := DoAll(order, w);
            && w' == w.(files := w'.files) && CanSave(p, buf, w') && w'.files[p.recvFd] == Saved(s, offset)
  {
    forall j | 4 * from <= j < offset ensures EndOf(j, |s|) == offset {
      assert j / 2048 == from / 512;
    }
    forall i | from <= i < to ensures Fits(p, buf, Saved(s, offset), 4 * from, WriteOf(p, buf, |s|, i), w.mem) {
      ImageFits(p, buf, s, from, to, offset, i, w.mem);
    }
    WritesLand(p, buf, |s|, from, to, Saved(s, offset), order, w);
    assert Saved(s, 4 * from) + Saved(s, offset)[4 * from..] == Saved(s, offset);
  }

  // ---------- Passes ----------

  lemma {:induction false} RunsKeepOps(r: Ring, sched: seq<Choice>)
    requires Wf(r)
    ensures multiset(Ops(PostedBy(r, sched)) + Flatten(Runs(r, sched).flying)) == multiset(Flatten(r.flying))
  {
    hide Runs, PostedBy;
    RunsConserve(r, sched);
    MergeInOrder(Runs(r, sched).flying);
    RunsMerge(r, sched, Flatten(Runs(r, sched).flying));
    MergeKeepsAll(r.flying, Ops(PostedBy(r, sched)) + Flatten(Runs(r, sched).flying));
  }

  lemma {:induction false} StaySingle(r: Ring, sched: seq<Choice>)
    requires AllSingle(r.flying)
    ensures AllSingle(Runs(r, sched).flying)
    decreases |sched|
  {
    if sched != [] {
      StaySingle(KernelStep(r, sched[0]), sched[1..]);
    }
  }

  /** A loop head of such a run after `n` chunks of stream `s`: the batch's writes are all still to
      run. */
  ghost predicate OwnHead(p: Phase, buf: int, s: seq<Byte>, base: nat, n: nat, offset: nat, batchCount: nat, head: Ring) {
    && CanSave(p, buf, head.world) && Wf(head) && AllSingle(head.flying) && head.cq == []
    && (forall i :: 0 <= i < |head.sq| ==> !head.sq[i].link)
    && base % 512 == 0 && base <= n && batchCount == n - base < 512
    && 4 * n < |s| + 4 && offset == Min(4 * n, |s|)
    && head.world.inbox[p.sock] == s[offset..] && BufferHolds(buf, s, offset, head.world.mem)
    && head.world.files[p.recvFd] == Saved(s, Min(4 * base, |s|))
    && multiset(Flatten(head.flying) + Queued(head.sq)) == multiset(Writes(p, buf, |s|, base, n))
  }

  lemma {:induction false} InFlight(r: Ring, op: Op)
    requires Wf(r) && AllSingle(r.flying) && forall i :: 0 <= i < |r.sq| ==> !r.sq[i].link
    ensures var r' := Submit(r.(sq := r.sq + [Sqe(op, false)]));
            && Wf(r') && AllSingle(r'.flying)
            && multiset(Flatten(r'.flying)) == multiset(Flatten(r.flying) + Queued(r.sq)) + multiset{op}
  {
    var sq := r.sq + [Sqe(op, false)];
    assert Queued(sq) == Queued(r.sq) + [op];
    UnlinkedChains(Queued(sq), Links(sq));
    QueueSubmits(0, Queued(sq), r.world);
    FlattenAppend(r.flying, Singles(Queued(sq)));
    assert Flatten(r.flying) + Queued(sq) == (Flatten(r.flying) + Queued(r.sq)) + [op];
  }

  lemma {:induction false} PlainRun(r: Ring, sched: seq<Choice>) returns (order: seq<Op>)
    requires Wf(r) && AllSingle(r.flying) && r.cq == [] && PostedBy(r, sched) == Plain(Ops(PostedBy(r, sched)), r.world)
    ensures var r' := Runs(r, sched);
            && r'.sq == r.sq && Wf(r') && AllSingle(r'.flying)
            && r'.cq == Plain(order, r.world) && r'.world == DoAll(order, r.world)
            && multiset(order + Flatten(r'.flying)) == multiset(Flatten(r.flying))
  {
    hide Runs, PostedBy, Plain, DoAll;
    order := Ops(PostedBy(r, sched));
    RunsConserve(r, sched);
    RunsPost(r, sched);
    RunsReplay(r, sched);
    PlainReplays(order, r.world);
    RunsKeepOps(r, sched);
    StaySingle(r, sched);
  }

  lemma {:induction false} OwnPass(p: Phase, buf: int, s: seq<Byte>, base: nat, n: nat, x: Round) returns (order: seq<Op>)
    requires OwnHead(p, buf, s, base, n, x.offset, x.batchCount, x.head)
    requires RoundOk(p, buf, x) && Healthy(x) && x.taken.op.Recv?
    ensures var recv, r := Recv(p.sock, buf, 4), AfterWait(x);
            && r.sq == [] && Wf(r) && AllSingle(r.flying)
            && x.taken.res == Best(recv, x.head.world) && r.world == DoAll(order, Do(recv, x.head.world))
            && multiset(order + Flatten(r.flying)) == multiset(Writes(p, buf, |s|, base, n))
            && |r.cq| == |order| && forall i :: 0 <= i < |order| ==> r.cq[i].op == order[i] && order[i].Write?
  {
    hide OwnHead, Healthy, Runs, PostedBy, Plain, DoAll, Best, Do, Writes, Submit;
    var recv, w := Recv(p.sock, buf, 4), x.head.world;
    PassStart(p, buf, s, base, n, x);
    var ops := PlainRun(Submit(x.submitted), x.sched);
    OnlyRecv(p, buf, |s|, base, n, ops, Flatten(Runs(Submit(x.submitted), x.sched).flying), recv);
    FirstCall(ops, w);
    assert AfterWait(x).flying == Runs(Submit(x.submitted), x.sched).flying;
    order := ops[1..];
  }

  lemma FirstCall(ops: seq<Op>, w: World)
    requires ops != []
    ensures Plain(ops, w)[0].res == Best(ops[0], w) && DoAll(ops, w) == DoAll(ops[1..], Do(ops[0], w))
  {
    hide Best, Do;
  }

  lemma {:induction false} PassStart(p: Phase, buf: int, s: seq<Byte>, base: nat, n: nat, x: Round)
    requires OwnHead(p, buf, s, base, n, x.offset, x.batchCount, x.head) && RoundOk(p, buf, x) && Healthy(x)
    ensures p.Receiving? && base <= n && 4 * n < |s| + 4
    ensures var r := Submit(x.submitted);
            && Wf(r) && AllSingle(r.flying) && r.sq == [] && r.cq == [] && r.world == x.head.world
            && PostedBy(r, x.sched) == Plain(Ops(PostedBy(r, x.sched)), r.world)
            && multiset(Flatten(r.flying))
               == multiset(Writes(p, buf, |s|, base, n)) + multiset{Recv(p.sock, buf, 4)}
  {
    hide BufferHolds, Runs, PostedBy, Plain, Writes, Saved;
    InFlight(x.head, Recv(p.sock, buf, 4));
  }

  /** Among the writes of a batch and a recv, the recv is the only recv. */
  lemma {:induction false} OnlyRecv(p: Phase, buf: int, size: nat, from: nat, to: nat, ops: seq<Op>, others: seq<Op>, recv: Op)
    requires p.Receiving? && from <= to && 4 * to < size + 4 && ops != [] && ops[0].Recv?
    requires multiset(ops + others) == multiset(Writes(p, buf, size, from, to)) + multiset{recv}
    ensures ops[0] == recv
    ensures multiset(ops[1..] + others) == multiset(Writes(p, buf, size, from, to))
    ensures forall i :: 0 < i < |ops| ==> ops[i].Write?
  {
    var writes, rest := Writes(p, buf, size, from, to), ops[1..] + others;
    forall op: Op | op in multiset(writes) ensures op.Write? {
      var k :| 0 <= k < |writes| && writes[k] == op;
      assert writes[k] == WriteOf(p, buf, size, from + k);
    }
    assert ops + others == [ops[0]] + rest;
    assert multiset(ops + others) == multiset{ops[0]} + multiset(rest);
    assert ops[0] in multiset(ops + others);
    assert multiset(rest) == multiset(ops + others) - multiset{recv};
    forall i | 0 < i < |ops| ensures ops[i].Write? {
      assert rest[i - 1] in multiset(rest);
    }
  }

  lemma {:induction false} SettledPlain(r: Ring, posted: seq<Cqe>, w: World)
    requires Settled(r, posted, w) && posted == Plain(Ops(posted), r.world)
    ensures multiset(Ops(posted)) == multiset(Flatten(r.flying)) && w == DoAll(Ops(posted), r.world)
  {
    MergeKeepsAll(r.flying, Ops(posted));
    PlainReplays(Ops(posted), r.world);
  }

  lemma StillFirst(p: Phase, buf: int, y: Round)
    requires RoundOk(p, buf, y) && Wf(y.head) && y.head.cq != []
    ensures y.taken == y.head.cq[0]
  {
    SubmitCounts(y.submitted);
    RunsConserve(Submit(y.submitted), y.sched);
  }

  lemma {:induction false} NextWrite(p: Phase, buf: int, size: nat, from: nat, to: nat, ops: seq<Op>)
    requires p.Receiving? && from <= to && 4 * to < size && multiset(ops) == multiset(Writes(p, buf, size, from, to))
    ensures multiset(ops + [WriteOf(p, buf, size, to)]) == multiset(Writes(p, buf, size, from, to + 1))
  {
    hide WriteOf;
    assert Writes(p, buf, size, from, to) + [WriteOf(p, buf, size, to)] == Writes(p, buf, size, from, to + 1);
  }

  /** The next wait takes a recv's completion as well: no write has run. */
  lemma {:induction false} NoneRan(p: Phase, buf: int, s: seq<Byte>, base: nat, n: nat, x: Round, y: Round)
    requires OwnHead(p, buf, s, base, n, x.offset, x.batchCount, x.head) && RoundOk(p, buf, x) && Healthy(x) && x.taken.op.Recv?
    requires RoundOk(p, buf, y) && y.taken.op.Recv?
    requires y.head.cq == AfterWait(x).cq && y.head.flying == AfterWait(x).flying
    ensures var recv, r := Recv(p.sock, buf, 4), AfterWait(x);
            && r.cq == [] && r.world == Do(recv, x.head.world) && x.taken.res == Best(recv, x.head.world)
            && multiset(Flatten(r.flying)) == multiset(Writes(p, buf, |s|, base, n))
            && r.sq == [] && Wf(r) && AllSingle(r.flying)
  {
    hide OwnHead, Runs, Best, Do, Writes, Submit, Healthy;
    PassStart(p, buf, s, base, n, x);
    var order := OwnPass(p, buf, s, base, n, x);
    if y.head.cq != [] {
      StillFirst(p, buf, y);
      assert false;
    }
    assert [] + Flatten(AfterWait(x).flying) == Flatten(AfterWait(x).flying);
  }

  lemma {:induction false} OwnNext(p: Phase, buf: int, s: seq<Byte>, base: nat, n: nat, x: Round, y: Round)
    requires OwnHead(p, buf, s, base, n, x.offset, x.batchCount, x.head) && Healthy(x) && x.taken.op.Recv?
    requires Follows(p, buf, x, y.offset, y.batchCount, y.head) && x.batchCount + 1 < BATCH
    requires RoundOk(p, buf, y) && y.taken.op.Recv?
    ensures OwnHead(p, buf, s, base, n + 1, y.offset, y.batchCount, y.head)
  {
    hide BufferHolds, Runs, Best, Do, Writes, Saved, Submit, Healthy, WriteOf;
    var r := AfterWait(x);
    NoneRan(p, buf, s, base, n, x, y);
    RecvLoads(p, buf, s, x.offset, x.head.world);
    NextWrite(p, buf, |s|, base, n, Flatten(r.flying));
    assert Queued(y.head.sq) == [WriteOf(p, buf, |s|, n)] by { ReplyWrites(p, buf, |s|, n, x); }
  }

  lemma ReplyWrites(p: Phase, buf: int, size: nat, n: nat, x: Round)
    requires p.Receiving? && 4 * n < size && x.offset == 4 * n && x.taken.res == Min(4, size - 4 * n)
    requires Runs(Submit(x.submitted), x.sched).cq != []
    ensures Queued(Replied(p, buf, x).sq) == [WriteOf(p, buf, size, n)]
  {
    hide Runs, Submit;
  }

  /** The writes that ran behind the recv, and those that run in the flush or at the end. */
  lemma {:induction false} BothParts(ran: seq<Op>, flying: seq<Op>, extra: seq<Op>, late: seq<Op>, all: seq<Op>, w: World)
    requires multiset(ran + flying) == multiset(all) && multiset(late) == multiset(flying + extra)
    ensures multiset(ran + late) == multiset(all + extra)
    ensures DoAll(late, DoAll(ran, w)) == DoAll(ran + late, w)
  {
    DoAllAppend(ran, late, w);
  }

  lemma {:induction false} LateWrites(r: Ring, posted: seq<Cqe>, w: World)
    requires |r.sq| <= 1 && (r.sq != [] ==> !r.sq[0].link) && Wf(r) && AllSingle(r.flying)
    requires Settled(Submit(r), posted, w) && posted == Plain(Ops(posted), r.world)
    ensures multiset(Ops(posted)) == multiset(Flatten(r.flying) + Queued(r.sq)) && w == DoAll(Ops(posted), r.world)
  {
    hide Settled, Plain, DoAll;
    SettledPlain(Submit(r), posted, w);
    if r.sq == [] {
      assert Submit(r).flying == r.flying && Flatten(r.flying) + Queued(r.sq) == Flatten(r.flying);
    } else {
      var op := r.sq[0].op;
      InFlight(r.(sq := []), op);
      assert r.(sq := [] + [Sqe(op, false)]) == r;
      assert Queued(r.sq) == [op];
    }
  }

  lemma HeadFacts(p: Phase, buf: int, s: seq<Byte>, base: nat, n: nat, offset: nat, batchCount: nat, head: Ring)
    requires OwnHead(p, buf, s, base, n, offset, batchCount, head)
    ensures CanSave(p, buf, head.world) && head.world.inbox[p.sock] == s[offset..] && BufferHolds(buf, s, offset, head.world.mem)
    ensures base % 512 == 0 && base <= n && batchCount == n - base < 512
    ensures 4 * n < |s| + 4 && offset == Min(4 * n, |s|)
    ensures head.world.files[p.recvFd] == Saved(s, Min(4 * base, |s|))
  {
    hide BufferHolds, CanSave;
  }

  lemma {:induction false} WholeBatch(p: Phase, buf: int, s: seq<Byte>, base: nat, n: nat, x: Round, offset: nat,
                                      batchCount: nat, head: Ring) returns (all: seq<Op>)
    requires OwnHead(p, buf, s, base, n, x.offset, x.batchCount, x.head) && Healthy(x) && x.taken.op.Recv?
    requires Follows(p, buf, x, offset, batchCount, head) && x.batchCount + 1 == BATCH
    ensures p.Receiving? && base <= n && 4 * n == x.offset < |s| && offset == Min(4 * n + 4, |s|)
    ensures multiset(all) == multiset(Writes(p, buf, |s|, base, n + 1))
    ensures head.world == DoAll(all, Do(Recv(p.sock, buf, 4), x.head.world))
    ensures head == NewRing(head.depth, head.world) && batchCount == 0
  {
    hide OwnHead, BufferHolds, Runs, Best, Do, DoAll, Plain, Writes, Saved, Submit, WriteOf, Settled;
    HeadFacts(p, buf, s, base, n, x.offset, x.batchCount, x.head);
    var order := OwnPass(p, buf, s, base, n, x);
    RecvLoads(p, buf, s, x.offset, x.head.world);
    ReplyWrites(p, buf, |s|, n, x);
    LateWrites(Replied(p, buf, x), x.flushed, head.world);
    var writes, late := Writes(p, buf, |s|, base, n), Ops(x.flushed);
    BothParts(order, Flatten(AfterWait(x).flying), [WriteOf(p, buf, |s|, n)], late, writes,
              Do(Recv(p.sock, buf, 4), x.head.world));
    NextWrite(p, buf, |s|, base, n, writes);
    all := order + late;
  }

  /** A flush writes the whole batch from the buffer as it is then. */
  lemma {:induction false} OwnFlush(p: Phase, buf: int, s: seq<Byte>, base: nat, n: nat, x: Round, offset: nat,
                                    batchCount: nat, head: Ring)
    requires OwnHead(p, buf, s, base, n, x.offset, x.batchCount, x.head) && Healthy(x) && x.taken.op.Recv?
    requires Follows(p, buf, x, offset, batchCount, head) && x.batchCount + 1 == BATCH
    ensures OwnHead(p, buf, s, n + 1, n + 1, offset, batchCount, head)
  {
    hide OwnHead, Follows, BufferHolds, Best, Do, DoAll, Writes, Saved, Healthy, Runs, Submit;
    HeadFacts(p, buf, s, base, n, x.offset, x.batchCount, x.head);
    var all := WholeBatch(p, buf, s, base, n, x, offset, batchCount, head);
    RecvLoads(p, buf, s, x.offset, x.head.world);
    BatchLands(p, buf, s, base, n + 1, offset, all, Do(Recv(p.sock, buf, 4), x.head.world));
    FreshHead(p, buf, s, n + 1, offset, head.depth, head.world);
  }

  lemma {:induction false} FreshHead(p: Phase, buf: int, s: seq<Byte>, n: nat, offset: nat, depth: nat, w: World)
    requires CanSave(p, buf, w) && n % 512 == 0 && 4 * n < |s| + 4 && offset == Min(4 * n, |s|)
    requires w.inbox[p.sock] == s[offset..] && BufferHolds(buf, s, offset, w.mem) && w.files[p.recvFd] == Saved(s, offset)
    ensures OwnHead(p, buf, s, n, n, offset, 0, NewRing(depth, w))
  {
    hide BufferHolds, Saved;
    assert Flatten<Op>([]) + Queued([]) == Writes(p, buf, |s|, n, n);
  }

  // ---------- Whole runs ----------

  /** Every wait takes the completion of a recv. */
  ghost predicate AllOwn(rounds: seq<Round>, last: Round) {
    last.taken.op.Recv? && forall i :: 0 <= i < |rounds| ==> rounds[i].taken.op.Recv?
  }

  lemma {:induction false} OwnHolds(p: Phase, buf: int, s: seq<Byte>, start: Ring, rounds: seq<Round>, y: Round)
    returns (base: nat)
    requires Looped(p, buf, start, rounds, y.offset, y.batchCount, y.head) && RoundOk(p, buf, y)
    requires AllOwn(rounds, y) && forall i :: 0 <= i < |rounds| ==> Healthy(rounds[i])
    requires CanSave(p, buf, start.world) && start.world.files[p.recvFd] == [] && start.world.inbox[p.sock] == s
    ensures OwnHead(p, buf, s, base, |rounds|, y.offset, y.batchCount, y.head)
    decreases |rounds|
  {
    hide Follows, RoundOk, Healthy, OwnHead;
    if rounds == [] {
      base := 0;
      assert s[0..] == s && Saved(s, 0) == [];
      FreshHead(p, buf, s, 0, 0, start.depth, start.world);
    } else {
      var n := |rounds| - 1;
      var x := rounds[n];
      LoopedLess(p, buf, start, rounds, y.offset, y.batchCount, y.head);
      FollowsOk(p, buf, x, y.offset, y.batchCount, y.head);
      base := OwnHolds(p, buf, s, start, rounds[..n], x);
      if x.batchCount + 1 < BATCH {
        OwnNext(p, buf, s, base, n, x, y);
      } else {
        OwnFlush(p, buf, s, base, n, x, y.offset, y.batchCount, y.head);
        base := n + 1;
      }
    }
  }

  lemma FollowsOk(p: Phase, buf: int, x: Round, offset: nat, batchCount: nat, head: Ring)
    requires Follows(p, buf, x, offset, batchCount, head)
    ensures RoundOk(p, buf, x) && x.batchCount < BATCH
  {
  }

  /** Behind the last wait the rest of the batch is written. */
  lemma {:induction false} OwnEnd(p: Phase, buf: int, s: seq<Byte>, base: nat, n: nat, last: Round, posted: seq<Cqe>, w: World)
    requires OwnHead(p, buf, s, base, n, last.offset, last.batchCount, last.head)
    requires RoundOk(p, buf, last) && Healthy(last) && last.taken.op.Recv? && last.taken.res <= 0
    requires Settled(Submit(AfterWait(last)), posted, w) && posted == Plain(Ops(posted), AfterWait(last).world)
    ensures p.Receiving? && p.recvFd in w.files && w.files[p.recvFd] == Saved(s, |s|)
  {
    hide OwnHead, Healthy, BufferHolds, Runs, Best, Do, DoAll, Plain, Writes, Saved, Submit, Settled;
    HeadFacts(p, buf, s, base, n, last.offset, last.batchCount, last.head);
    var order := OwnPass(p, buf, s, base, n, last);
    RecvLoads(p, buf, s, last.offset, last.head.world);
    LateWrites(AfterWait(last), posted, w);
    var recvd, writes := Do(Recv(p.sock, buf, 4), last.head.world), Writes(p, buf, |s|, base, n);
    assert Queued(AfterWait(last).sq) == [];
    BothParts(order, Flatten(AfterWait(last).flying), [], Ops(posted), writes, recvd);
    assert writes + [] == writes;
    RestLands(p, buf, s, base, n, order + Ops(posted), recvd);
  }

  lemma {:induction false} RestLands(p: Phase, buf: int, s: seq<Byte>, base: nat, n: nat, order: seq<Op>, w: World)
    requires CanSave(p, buf, w) && base % 512 == 0 && base <= n < base + 512 && |s| <= 4 * n < |s| + 4
    requires BufferHolds(buf, s, |s|, w.mem) && w.files[p.recvFd] == Saved(s, Min(4 * base, |s|))
    requires multiset(order) == multiset(Writes(p, buf, |s|, base, n))
    ensures p.recvFd in DoAll(order, w).files && DoAll(order, w).files[p.recvFd] == Saved(s, |s|)
  {
    hide BufferHolds;
    if base < n {
      BatchLands(p, buf, s, base, n, |s|, order, w);
    } else {
      assert |multiset(order)| == 0;
      assert order == [] && DoAll(order, w) == w;
    }
  }

  /** No two bytes of a batch that go to the same place in the buffer differ. */
  ghost predicate PeriodicBatches(s: seq<Byte>) {
    forall j :: 0 <= j < |s| - 4 && j / 2048 == (j + 4) / 2048 ==> s[j] == s[j + 4]
  }

  lemma {:induction false} LastIsSame(s: seq<Byte>, j: nat)
    requires PeriodicBatches(s) && j < |s|
    ensures s[LastOf(j, EndOf(j, |s|))] == s[j]
    decreases |s| - j
  {
    if j + 4 < EndOf(j, |s|) {
      LastIsSame(s, j + 4);
    }
  }

  lemma {:induction false} SameLast(s: seq<Byte>, j: nat)
    requires j + 4 < |s| && j / 2048 == (j + 4) / 2048
    ensures Saved(s, |s|)[j] == Saved(s, |s|)[j + 4]
  {
    assert EndOf(j, |s|) == EndOf(j + 4, |s|);
    SameRest(j, EndOf(j, |s|));
  }

  lemma SameRest(j: nat, end: nat)
    requires j + 4 < end
    ensures LastOf(j, end) == LastOf(j + 4, end)
  {
  }

  lemma {:induction false} SavedIff(s: seq<Byte>)
    ensures Saved(s, |s|) == s <==> PeriodicBatches(s)
  {
    hide LastOf, EndOf;
    if PeriodicBatches(s) {
      forall j | 0 <= j < |s| ensures Saved(s, |s|)[j] == s[j] {
        LastIsSame(s, j);
      }
    }
    if Saved(s, |s|) == s {
      forall j | 0 <= j < |s| - 4 && j / 2048 == (j + 4) / 2048 ensures s[j] == s[j + 4] {
        SameLast(s, j);
      }
    }
  }

  /** When every wait takes the completion of a recv, no write runs before its batch ends: recv.txt is
      the stream exactly if in every batch of 2048 bytes each byte equals the one 4 positions on. */
  lemma {:induction false} OwnRecvsSaveIff(p: Phase, buf: int, start: Ring, rounds: seq<Round>, offset: nat, last: Round,
                                           posted: seq<Cqe>, w: World)
    requires RecvRun(p, buf, start, rounds, offset, last, posted, w) && AllHealthy(rounds, last, posted)
    requires AllOwn(rounds, last)
    requires CanSave(p, buf, start.world) && start.world.files[p.recvFd] == []
    ensures p.recvFd in w.files
    ensures w.files[p.recvFd] == start.world.inbox[p.sock] <==>
            forall j :: 0 <= j < |start.world.inbox[p.sock]| - 4 && j / 2048 == (j + 4) / 2048 ==>
              start.world.inbox[p.sock][j] == start.world.inbox[p.sock][j + 4]
  {
    hide Looped, RoundOk, Settled, Healthy, OwnHead, Runs, Submit, Saved, LastOf, EndOf;
    var s := start.world.inbox[p.sock];
    var base := OwnHolds(p, buf, s, start, rounds, last);
    OwnEnd(p, buf, s, base, |rounds|, last, posted, w);
    SavedIff(s);
  }

  // ---------- Such runs exist ----------

  lemma {:induction false} LastFirst(r: Ring)
    requires r.flying != [] && AllSingle(r.flying) && r.cq == [] && Wf(r)
    ensures var n, sched := |r.flying| - 1, [Choice(|r.flying| - 1, Fine)];
            var op := r.flying[n][0];
            && Runs(r, sched) == r.(flying := r.flying[..n], cq := [Cqe(op, Best(op, r.world))], world := Do(op, r.world))
            && PostedBy(r, sched) == [Cqe(op, Best(op, r.world))]
  {
    hide Best, Do;
    var n := |r.flying| - 1;
    var c := Choice(n, Fine);
    PlainStep(r, n);
    assert Advance(r.flying, n) == r.flying[..n];
    assert [c][1..] == [] && Runs(r, [c]) == KernelStep(r, c);
    assert PostedBy(r, [c]) == Posted(r, c) + [];
  }

  lemma RecvTakes(op: Op, w: World)
    requires op.Recv? && Best(op, w) > 0
    ensures Left(Do(op, w), op.fd) < Left(w, op.fd)
  {
  }

  lemma {:induction false} NewestLast(head: Ring, op: Op)
    requires forall i :: 0 <= i < |head.sq| ==> !head.sq[i].link
    ensures var front := head.flying + Singles(Queued(head.sq));
            && Submit(head.(sq := head.sq + [Sqe(op, false)])) == head.(sq := [], flying := front + [[op]])
            && |Flatten(front)| == |Flatten(head.flying)| + |head.sq|
  {
    hide Chains, Flatten;
    var sq := head.sq + [Sqe(op, false)];
    UnlinkedChains(Queued(sq), Links(sq));
    assert Singles(Queued(sq)) == Singles(Queued(head.sq)) + [[op]];
    FlattenAppend(head.flying, Singles(Queued(head.sq)));
    QueueSubmits(0, Queued(head.sq), head.world);
    assert head.flying + (Singles(Queued(head.sq)) + [[op]]) == head.flying + Singles(Queued(head.sq)) + [[op]];
  }

  lemma FrontMine(p: Phase, buf: int, batchCount: nat, head: Ring)
    requires RecvHead(p, buf, batchCount, head)
    ensures var front := head.flying + Singles(Queued(head.sq));
            && AllSingle(front) && (forall i :: 0 <= i < |front| ==> Mine(p, buf, front[i][0]))
            && Wf(head.(flying := front)) && AllSingle(front + [[Recv(p.sock, buf, 4)]])
            && Wf(head.(flying := front + [[Recv(p.sock, buf, 4)]]))
  {
    hide Mine;
  }

  /** A pass in which only the recv runs. */
  lemma {:induction false} OwnStep(p: Phase, buf: int, offset: nat, batchCount: nat, head: Ring) returns (x: Round)
    requires RecvHead(p, buf, batchCount, head) && head.cq == []
    ensures RoundOk(p, buf, x) && Healthy(x) && x.taken.op.Recv?
    ensures x.offset == offset && x.batchCount == batchCount && x.head == head && x.flushed == []
    ensures var r := AfterWait(x);
            && r.sq == [] && r.cq == [] && Wf(r) && Open(r) == batchCount
            && (forall i :: 0 <= i < |r.flying| ==> |r.flying[i]| == 1 && Mine(p, buf, r.flying[i][0]))
            && (x.taken.res > 0 ==> Left(r.world, p.sock) < Left(head.world, p.sock))
  {
    hide Best, Do, Runs, PostedBy, Mine, Left, Submit;
    var recv := Recv(p.sock, buf, 4);
    var submitted := head.(sq := head.sq + [Sqe(recv, false)]);
    var r, front := Submit(submitted), head.flying + Singles(Queued(head.sq));
    NewestLast(head, recv);
    FrontMine(p, buf, batchCount, head);
    var n := |front|;
    assert r.flying[..n] == front;
    LastFirst(r);
    OneCall(recv, r.world);
    x := Round(offset, batchCount, head, submitted, [Choice(n, Fine)], Cqe(recv, Best(recv, r.world)), []);
    if x.taken.res > 0 {
      RecvTakes(recv, r.world);
    }
  }

  lemma {:induction false} OwnHeadNext(p: Phase, buf: int, x0: Round) returns (x: Round, batchCount: nat, head: Ring)
    requires p.Receiving? && RoundOk(p, buf, x0) && Healthy(x0) && x0.taken.op.Recv? && x0.taken.res > 0 && x0.flushed == []
    requires var r := AfterWait(x0);
             && r.sq == [] && r.cq == [] && Wf(r) && Open(r) == x0.batchCount
             && forall i :: 0 <= i < |r.flying| ==> |r.flying[i]| == 1 && Mine(p, buf, r.flying[i][0])
    ensures x == x0.(flushed := x.flushed) && Healthy(x)
    ensures Follows(p, buf, x, x.offset + x.taken.res, batchCount, head)
    ensures RecvHead(p, buf, batchCount, head) && head.cq == []
    ensures Left(head.world, p.sock) <= Left(AfterWait(x0).world, p.sock)
  {
    hide Runs, PostedBy, Plain, DoAll, Settled, Left;
    var full := Replied(p, buf, x0);
    if x0.batchCount + 1 < BATCH {
      x, batchCount, head := x0, x0.batchCount + 1, full;
    } else {
      SubmitCounts(full);
      UnlinkedChains(Queued(full.sq), Links(full.sq));
      var order := Flatten(Submit(full).flying);
      var sched := DrainInOrder(Submit(full));
      var flushed := Plain(order, full.world);
      PlainOps(order, full.world);
      batchCount, head := 0, NewRing(full.depth, DoAll(order, full.world));
      x := x0.(flushed := flushed);
      SettledLeft(full, flushed, head.world, p.sock);
      SettledReplay(Submit(full), flushed, head.world);
    }
    ReplyFollows(p, buf, x0, full, x.flushed, x.offset + x.taken.res, batchCount, head);
  }

  /** Every loop head without completions left has such a run to the end. */
  lemma {:induction false} FinishOwn(p: Phase, buf: int, start: Ring, rounds: seq<Round>, offset: nat, batchCount: nat,
                                     head: Ring)
    returns (rounds': seq<Round>, offset': nat, last: Round, posted: seq<Cqe>, w: World)
    requires Looped(p, buf, start, rounds, offset, batchCount, head)
    requires RecvHead(p, buf, batchCount, head) && head.cq == []
    requires forall i :: 0 <= i < |rounds| ==> Healthy(rounds[i]) && rounds[i].taken.op.Recv?
    ensures RecvRun(p, buf, start, rounds', offset', last, posted, w)
    ensures AllHealthy(rounds', last, posted) && AllOwn(rounds', last)
    decreases Left(head.world, p.sock)
  {
    hide Looped, Follows, Settled, Healthy, Left, Runs, Submit;
    var x0 := OwnStep(p, buf, offset, batchCount, head);
    if x0.taken.res > 0 {
      var x, batchCount', head' := OwnHeadNext(p, buf, x0);
      LoopedMore(p, buf, start, rounds, x, offset + x.taken.res, batchCount', head');
      rounds', offset', last, posted, w := FinishOwn(p, buf, start, rounds + [x], offset + x.taken.res, batchCount', head');
    } else {
      rounds', offset', last := rounds, offset, x0;
      var r := AfterWait(x0);
      DrainRest(r);
      posted, w := Plain(Flatten(r.flying), r.world), DoAll(Flatten(r.flying), r.world);
      PlainOps(Flatten(r.flying), r.world);
    }
  }

  lemma {:induction false} DrainRest(r: Ring)
    requires r.sq == [] && Wf(r) && AllSingle(r.flying)
    ensures Settled(Submit(r), Plain(Flatten(r.flying), r.world), DoAll(Flatten(r.flying), r.world))
  {
    hide Settled, Plain, DoAll;
    assert Submit(r) == r;
    var sched := DrainInOrder(r);
  }
}
