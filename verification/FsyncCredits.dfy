/** The fsync benchmark and its kernel-side counter (iouring_fsync_poc/iouring_fsync.c and
    iouring_fsync_poc/iouring_fsync.bpf.c). */
module FsyncCredits {
  import opened Basics
  import opened World
  import opened Uring

  const DEPTH := 1024
  const BUF_LEN := 256
  const INT_SPAN := 0x1_0000_0000
  const INT_MAX := 0x7fff_ffff

  /** The value of a 32-bit int after wrap-around. */
  function ToInt(x: int): (r: int)
    ensures -INT_MAX - 1 <= r <= INT_MAX
  {
    (x + INT_MAX + 1) % INT_SPAN - INT_MAX - 1
  }

  lemma ToIntAdds(x: int, d: int)
    ensures ToInt(ToInt(x) + d) == ToInt(x + d)
  {
    var a := x + INT_MAX + 1;
    assert (a % INT_SPAN + d) % INT_SPAN == (a + d) % INT_SPAN;
  }

  /** The counter reads as the true difference exactly while that difference fits an int; it
      reads negative exactly in the upper half of each wrap. */
  lemma CounterReads(unspent: nat)
    ensures ToInt(unspent) == unspent <==> unspent <= INT_MAX
    ensures ToInt(unspent) < 0 <==> unspent % INT_SPAN > INT_MAX
  {
  }

  /** `n` pairs of a write and the fsync behind it, none linked. */
  ghost predicate Alternates(sq: seq<Sqe>, n: nat, fd: int, buf: int) {
    && |sq| == 2 * n
    && forall k :: 0 <= k < n ==>
         sq[2 * k] == Sqe(Write(fd, buf, BUF_LEN, 0), false) && sq[2 * k + 1] == Sqe(Fsync(fd), false)
  }

  ghost predicate Pairs(ops: seq<Op>, n: nat, fd: int, buf: int) {
    && |ops| == 2 * n
    && forall k :: 0 <= k < n ==> ops[2 * k] == Write(fd, buf, 256, 0) && ops[2 * k + 1] == Fsync(fd)
  }

  lemma OnceMore(n: nat, a: nat, b: nat)
    ensures n * a + a == (n + 1) * a && n * b + b == (n + 1) * b
  {
  }

  lemma ReportIff(passes: nat, batchSize: nat)
    requires passes >= 1
    ensures passes * batchSize >= batchSize
    ensures passes * Min(batchSize, 512) == passes * batchSize <==> batchSize <= 512
  {
    if batchSize > 512 {
      assert passes * batchSize == passes * 512 + passes * (batchSize - 512);
    }
  }

  lemma PairsAre(ops: seq<Op>, n: nat, fd: int, buf: int)
    requires Pairs(ops, n, fd, buf)
    ensures |ops| == 2 * n && forall k :: 0 <= k < n ==> ops[2 * k] == Write(fd, buf, 256, 0) && ops[2 * k + 1] == Fsync(fd)
  {
  }

  lemma MorePairs(before: seq<Op>, after: seq<Op>, n: nat, m: nat, fd: int, buf: int)
    requires Pairs(before, n, fd, buf) && before <= after && Pairs(after[|before|..], m, fd, buf)
    ensures Pairs(after, n + m, fd, buf)
  {
    forall k | 0 <= k < n + m ensures after[2 * k] == Write(fd, buf, 256, 0) && after[2 * k + 1] == Fsync(fd) {
      if k < n {
        assert after[2 * k] == before[2 * k] && after[2 * k + 1] == before[2 * k + 1];
      } else {
        var i := k - n;
        assert after[2 * k] == after[|before|..][2 * i] && after[2 * k + 1] == after[|before|..][2 * i + 1];
      }
    }
  }

  lemma Queueing(r: Ring, r': Ring)
    requires r' == r.(sq := r'.sq)
    ensures Wf(r) == Wf(r') && Outstanding(r') == Outstanding(r)
  {
  }

  lemma Submitting(r: Ring)
    ensures Submit(r).sq == [] && Submit(r).depth == r.depth
  {
  }

  class FsyncTest {
    var currentPid: int
    var writebackCount: int  // the counter shared with the kernel
    var ring: Ring
    var nrReqs: nat
    ghost var produced: nat  // increments since the start of the test
    ghost var consumed: nat  // waits skipped since then
    ghost var syncs: nat     // fsyncs submitted since then
    ghost var asked: seq<Op> // all that was submitted since then, in order

    ghost predicate Counted()
      reads `writebackCount, `produced, `consumed
    {
      consumed <= produced && writebackCount == ToInt(produced - consumed)
    }

    constructor (pid: int, w: World)
      ensures Counted()
    {
      currentPid, writebackCount, nrReqs := pid, 0, 0;
      ring := NewRing(DEPTH, w);
      produced, consumed, syncs := 0, 0, 0;
    }

    /** The kernel-side probe: one atomic increment per finished writeback of the process. */
    method FileWriteAndWaitRange(pid: int)
      requires Counted()
      modifies `writebackCount, `produced
      ensures Counted()
      ensures produced == old(produced) + if pid == currentPid then 1 else 0
    {
      if pid != currentPid {
        return;
      }
      ToIntAdds(produced - consumed, 1);
      writebackCount := ToInt(writebackCount + 1);
      produced := produced + 1;
    }

    /** Whatever the kernel adds while the test is between two of its own accesses. */
    method KernelMeanwhile()
      requires Counted()
      modifies `writebackCount, `produced
      ensures Counted() && produced >= old(produced)
    {
      var events :| 0 <= events;
      for i := 0 to events
        invariant Counted() && produced >= old(produced)
      {
        var pid := *;
        FileWriteAndWaitRange(pid);
      }
    }

    /** Queue pairs of a write and an fsync until the batch or the queue is full. */
    method QueueBatch(batchSize: nat, fd: int, buf: int) returns (syncCount: nat)
      requires ring.sq == [] && ring.depth == DEPTH
      modifies `ring
      ensures syncCount == Min(batchSize, 512) && |ring.sq| == 2 * syncCount
      ensures forall k :: 0 <= k < syncCount ==>
                ring.sq[2 * k] == Sqe(Write(fd, buf, 256, 0), false) && ring.sq[2 * k + 1] == Sqe(Fsync(fd), false)
      ensures ring == old(ring).(sq := ring.sq)
    {
      syncCount := 0;
      var i := 0;
      while i < batchSize
        invariant i == syncCount <= batchSize && Alternates(ring.sq, syncCount, fd, buf) && 2 * syncCount <= DEPTH
        invariant ring == old(ring).(sq := ring.sq)
      {
        if !HasRoom(ring) {
          break;
        }
        ring := Enqueue(ring, Write(fd, buf, BUF_LEN, 0));
        if !HasRoom(ring) {
          break;
        }
        ring := Enqueue(ring, Fsync(fd));
        syncCount := syncCount + 1;
        i := i + 1;
      }
    }

    /** Take one completion; `interrupted` waits report an error instead. */
    method WaitOne() returns (ret: int)
      requires Wf(ring) && Outstanding(ring) > 0
      modifies `ring
      ensures Wf(ring) && ring.sq == old(ring.sq) && ring.depth == old(ring.depth)
      ensures ret == 0 || ret < 0
      ensures Outstanding(ring) == Outstanding(old(ring)) - if ret == 0 then 1 else 0
    {
      var interrupted: bool := *;
      if interrupted {
        return -4;
      }
      ghost var before, sched := ring, [];
      var c;
      ring, c, sched := WaitCqe(ring);
      RunsConserve(before, sched);
      RunsCount(Runs(before, sched), 1);
      ret := 0;
    }

    /** Skip a wait for each credit, those of the start at least; wait for both completions
        otherwise. */
    method WaitWithCredits(syncCount: nat, submitted: int) returns (ret: int)
      requires Counted() && Wf(ring) && ring.sq == [] && ring.depth == DEPTH
      requires Outstanding(ring) == 2 * consumed + 2 * syncCount && submitted >= 0
      modifies `ring, `writebackCount, `produced, `consumed
      ensures Counted() && Wf(ring) && ring.sq == [] && ring.depth == DEPTH
      ensures old(consumed) <= consumed <= old(consumed) + syncCount && produced >= old(produced)
      ensures ret >= 0 && produced - old(consumed) <= INT_MAX ==>
                consumed - old(consumed) >= Min(syncCount, old(produced - consumed))
      ensures ret >= 0 ==> Outstanding(ring) == 2 * consumed
      ensures ret >= 0 && syncCount > 0 ==> ret == 0
    {
      hide ToInt, Wf, Outstanding;
      ret := submitted;
      for i := 0 to syncCount
        invariant Counted() && Wf(ring) && ring.sq == [] && ring.depth == DEPTH
        invariant Outstanding(ring) == 2 * consumed + 2 * (syncCount - i)
        invariant old(consumed) <= consumed <= old(consumed) + i && produced >= old(produced)
        invariant produced - old(consumed) <= INT_MAX ==> consumed - old(consumed) >= Min(i, old(produced - consumed))
        invariant ret >= 0 && (i > 0 ==> ret == 0)
      {
        KernelMeanwhile();
        CounterReads(produced - consumed);
        if writebackCount > 0 {
          KernelMeanwhile();
          ToIntAdds(produced - consumed, -1);
          writebackCount := ToInt(writebackCount - 1);
          consumed := consumed + 1;
          ret := 0;
        } else {
          ret := WaitOne();
          if ret < 0 {
            return;
          }
          ret := WaitOne();
          if ret < 0 {
            return;
          }
        }
      }
    }

    method WaitForAll(syncCount: nat, submitted: int) returns (ret: int)
      requires Wf(ring) && ring.sq == [] && ring.depth == DEPTH
      requires Outstanding(ring) >= 2 * syncCount && submitted >= 0
      modifies `ring
      ensures Wf(ring) && ring.sq == [] && ring.depth == DEPTH
      ensures ret >= 0 ==> Outstanding(ring) == Outstanding(old(ring)) - 2 * syncCount
      ensures ret >= 0 && syncCount > 0 ==> ret == 0
    {
      ret := submitted;
      for i := 0 to 2 * syncCount
        invariant Wf(ring) && ring.sq == [] && ring.depth == DEPTH
        invariant Outstanding(ring) == Outstanding(old(ring)) - i
        invariant ret >= 0 && (i > 0 ==> ret == 0)
      {
        ret := WaitOne();
        if ret < 0 {
          return;
        }
      }
    }

    /** Queue and submit a batch, then wait for it. */
    method Round(batchSize: nat, waitKernel: bool, fd: int, buf: int) returns (ret: int)
      requires Counted() && Wf(ring) && ring.sq == [] && ring.depth == DEPTH
      requires Outstanding(ring) == 2 * consumed
      modifies `ring, `writebackCount, `produced, `consumed, `syncs, `asked
      ensures old(asked) <= asked && Pairs(asked[|old(asked)|..], Min(batchSize, 512), fd, buf)
      ensures Counted() && Wf(ring) && ring.sq == [] && ring.depth == DEPTH
      ensures syncs == old(syncs) + Min(batchSize, DEPTH / 2)
      ensures consumed >= old(consumed) && (!waitKernel ==> consumed == old(consumed))
      ensures waitKernel && ret >= 0 && produced - old(consumed) <= INT_MAX ==>
                consumed - old(consumed) >= Min(Min(batchSize, DEPTH / 2), old(produced - consumed))
      ensures ret >= 0 ==> Outstanding(ring) == 2 * consumed
      ensures ret >= 0 && batchSize > 0 ==> ret == 0
    {
      hide ToInt, Wf, Outstanding, Submit;
      var syncCount := QueueBatch(batchSize, fd, buf);
      Queueing(old(ring), ring);
      SubmitCounts(ring);
      ret := |ring.sq|;
      Submitting(ring);
      asked := asked + Queued(ring.sq);
      ring := Submit(ring);
      syncs := syncs + syncCount;
      if waitKernel {
        ret := WaitWithCredits(syncCount, ret);
      } else {
        ret := WaitForAll(syncCount, ret);
      }
      KernelMeanwhile();
    }

    /** The test, for at most `rounds` further rounds before the clock stops it.  Every wait has
        something to wait for; the counter is what the kernel produced minus what was spent;
        and unless a wait fails, each credit ever spent leaves its two completions behind. */
    method Test(batchSize: nat, waitKernel: bool, rounds: nat, fd: int, buf: int, w: World)
      returns (ret: int, ghost passes: nat)
      modifies `ring, `nrReqs, `writebackCount, `produced, `consumed, `syncs, `asked
      ensures Counted() && Wf(ring)
      ensures ret >= 0 ==> Outstanding(ring) == 2 * consumed
      ensures !waitKernel ==> consumed == 0
      ensures 1 <= passes <= rounds + 1 && (ret == 0 ==> passes == rounds + 1)
      ensures nrReqs == passes * batchSize && syncs == passes * Min(batchSize, 512) && |asked| == 2 * syncs
      ensures forall k :: 0 <= k < syncs ==> asked[2 * k] == Write(fd, buf, 256, 0) && asked[2 * k + 1] == Fsync(fd)
      ensures nrReqs >= batchSize && (syncs == nrReqs <==> batchSize <= DEPTH / 2)
    {
      ring := NewRing(DEPTH, w);
      assert Wf(ring) && Outstanding(ring) == 0 && ring.sq == [] && ring.depth == DEPTH;
      assert Pairs([], 0, fd, buf);
      hide Wf, Outstanding, NewRing, Submit, Pairs;
      nrReqs, writebackCount := 0, 0;
      produced, consumed, syncs, asked, passes := 0, 0, 0, [], 0;
      var left := rounds;
      ghost var m := Min(batchSize, 512);
      while true
        invariant Counted() && Wf(ring) && ring.sq == [] && ring.depth == DEPTH
        invariant Outstanding(ring) == 2 * consumed
        invariant !waitKernel ==> consumed == 0
        invariant 0 <= left <= rounds && passes == rounds - left
        invariant nrReqs == passes * batchSize && syncs == passes * m && Pairs(asked, syncs, fd, buf)
        decreases left
      {
        ghost var before := asked;
        ret := Round(batchSize, waitKernel, fd, buf);
        MorePairs(before, asked, passes * m, m, fd, buf);
        OnceMore(passes, batchSize, m);
        passes := passes + 1;
        nrReqs := nrReqs + batchSize;
        if left == 0 || ret != 0 {
          break;
        }
        left := left - 1;
      }
      ReportIff(passes, batchSize);
      PairsAre(asked, syncs, fd, buf);
    }

    /** The tests with batches of 1, 2, 4, ..., 512 fsyncs, unless a signal stops them.  Even the
        largest batch just fits the queue, so each test did what it reports. */
    method RunTests(waitKernel: bool, buf: int)
      returns (sizes: seq<nat>, reports: seq<nat>, ghost totals: seq<nat>)
      requires Counted()
      modifies `ring, `nrReqs, `writebackCount, `produced, `consumed, `syncs, `asked
      ensures Counted() && sizes <= [1, 2, 4, 8, 16, 32, 64, 128, 256, 512]
      ensures forall i :: 0 <= i < |sizes| ==> sizes[i] <= DEPTH / 2
      ensures |sizes| == |reports| && reports == totals
      ensures forall i :: 0 <= i < |sizes| ==> reports[i] >= sizes[i]
    {
      sizes, reports, totals := [], [], [];
      var i, batchSize := 0, 1;
      ghost var planned := [1, 2, 4, 8, 16, 32, 64, 128, 256, 512];
      while i < 10
        invariant Counted() && i == |sizes| <= 10 && sizes <= planned
        invariant i < 10 ==> batchSize == planned[i]
        invariant |reports| == i && reports == totals && forall k :: 0 <= k < i ==> reports[k] >= sizes[k]
      {
        var exiting: bool, fd: int := *, *;
        var rounds :| 0 <= rounds;
        if exiting {
          break;
        }
        var _, _ := Test(batchSize, waitKernel, rounds, fd, buf, ring.world);
        sizes, reports, totals := sizes + [batchSize], reports + [nrReqs], totals + [syncs];
        i, batchSize := i + 1, 2 * batchSize;
      }
    }
  }
}
