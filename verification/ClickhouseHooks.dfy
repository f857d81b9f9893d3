/** The write and fsync hooks that share one counter (clickhouse-iouring/rocksdb.bpf.c). */
module ClickhouseHooks {
  import opened Basics
  import opened World
  import opened Uring

  const PATCH_SIZE := 48
  const HOOKED_LEN := 5
  const DEPTH := 1024

  /** The number of acknowledged calls that have been done. */
  function DoneOf(n: nat): (d: nat)
    ensures d <= n && n - d <= PATCH_SIZE && d % (PATCH_SIZE + 1) == 0
  {
    (PATCH_SIZE + 1) * (n / (PATCH_SIZE + 1))
  }

  method FlushBatch(r: Ring, count: nat) returns (r': Ring, ghost posted: seq<Cqe>)
    requires r.flying == [] && r.cq == [] && |r.sq| == count
    ensures r' == NewRing(r.depth, r'.world)
    ensures multiset(Ops(posted)) == multiset(Queued(r.sq)) && r'.world == Replay(posted, r.world)
  {
    r', posted := SubmitAndReap(r, count);
    MergeKeepsAll(Submit(r).flying, Ops(posted));
    assert Submit(r).flying == Chains(Queued(r.sq), Links(r.sq));
  }

  class Hooks {
    var currentCount: nat
    var ring: Ring
    ghost var log: seq<Op>    // every acknowledged call, in call order
    ghost var done: seq<Cqe>  // every completion taken
    ghost const start: World

    /** After N calls the first 49 * (N / 49) are done, each exactly once; the rest wait in the
        queue, N % 49 of them. */
    ghost predicate Valid()
      reads this
    {
      && currentCount == |log| % (PATCH_SIZE + 1)
      && ring.depth == DEPTH && ring.flying == [] && ring.cq == []
      && ring.sq == Unlinked(log[DoneOf(|log|)..])
      && multiset(Ops(done)) == multiset(log[..DoneOf(|log|)])
      && ring.world == Replay(done, start)
    }

    constructor (w: World)
      ensures Valid() && log == [] && done == []
    {
      currentCount, ring := 0, NewRing(DEPTH, w);
      log, done, start := [], [], w;
      new;
      assert log[DoneOf(0)..] == [] && log[..DoneOf(0)] == [];
    }

    /** Submit everything and wait once for each counted call. */
    method Flush()
      requires ring.depth == DEPTH && ring.flying == [] && ring.cq == [] && |ring.sq| == currentCount
      requires ring.world == Replay(done, start)
      modifies `ring, `done, `currentCount
      ensures ring.world == Replay(done, start)
      ensures currentCount == 0 && ring == NewRing(DEPTH, ring.world)
      ensures multiset(Ops(done)) == multiset(Ops(old(done))) + multiset(Queued(old(ring.sq)))
    {
      ghost var posted;
      ring, posted := FlushBatch(ring, currentCount);
      assert Ops(done + posted) == Ops(done) + Ops(posted);
      ReplayAppend(done, posted, start);
      done := done + posted;
      currentCount := 0;
    }

    method Count(op: Op)
      requires Valid()
      modifies this
      ensures Valid() && log == old(log) + [op]
      ensures var n := 49 * (|log| / 49);
              && ring.sq == Unlinked(log[n..]) && multiset(Ops(done)) == multiset(log[..n])
              && ring.world == Replay(done, start)
    {
      hide Replay;
      ghost var n, first := |log|, log[DoneOf(|log|)..];
      ghost var prefix := log[..DoneOf(|log|)];
      NextCall(n);
      log := log + [op];
      if currentCount < PATCH_SIZE {
        ring := Enqueue(ring, op);
        currentCount := currentCount + 1;
        assert log[DoneOf(n + 1)..] == first + [op];
        assert log[..DoneOf(n + 1)] == prefix;
        assert ring.sq == Unlinked(first + [op]);
      } else {
        ring := Enqueue(ring, op);
        currentCount := currentCount + 1;
        assert ring.sq == Unlinked(first + [op]);
        Flush();
        assert log[DoneOf(n + 1)..] == [];
        assert log[..DoneOf(n + 1)] == prefix + (first + [op]);
      }
    }

    /** A write of five bytes is queued and acknowledged, any other runs natively. */
    method WriteHook(fd: int, buf: int, n: nat) returns (override: Option<int>)
      requires Valid()
      modifies this
      ensures Valid()
      ensures override == if n == HOOKED_LEN then Some(5) else None
      ensures log == old(log) + if n == HOOKED_LEN then [Write(fd, buf, n, 0)] else []
    {
      if n == HOOKED_LEN {
        Count(Write(fd, buf, n, 0));
        return Some(5);
      }
      assert log == log + [];
      return None;
    }

    method FsyncHook(fd: int) returns (override: Option<int>)
      requires Valid()
      modifies this
      ensures Valid() && override == Some(0) && log == old(log) + [Fsync(fd)]
    {
      Count(Fsync(fd));
      return Some(0);
    }
  }

  /** What the hooks answer is what the plain calls would return exactly if the file is open, and for
      a write the five bytes are there. */
  lemma AckTrueIff(w: World, fd: int, buf: int)
    ensures Best(Write(fd, buf, HOOKED_LEN, 0), w) == 5 <==> fd in w.files && 0 <= buf && buf + 5 <= |w.mem|
    ensures Best(Fsync(fd), w) == 0 <==> fd in w.files
  {
  }

  lemma NextCall(n: nat)
    ensures n % (PATCH_SIZE + 1) == n - DoneOf(n)
    ensures n % (PATCH_SIZE + 1) < PATCH_SIZE ==>
              DoneOf(n + 1) == DoneOf(n) && (n + 1) % (PATCH_SIZE + 1) == n % (PATCH_SIZE + 1) + 1
    ensures n % (PATCH_SIZE + 1) == PATCH_SIZE ==> DoneOf(n + 1) == n + 1 && (n + 1) % (PATCH_SIZE + 1) == 0
  {
    var q, m := n / (PATCH_SIZE + 1), n % (PATCH_SIZE + 1);
    assert n == (PATCH_SIZE + 1) * q + m;
    if m < PATCH_SIZE {
      assert n + 1 == (PATCH_SIZE + 1) * q + (m + 1);
    } else {
      assert n + 1 == (PATCH_SIZE + 1) * (q + 1);
    }
  }
}
