/** The running averages of fsync latencies (fsync-latency-bpf/rocksdb.bpf.c). */
module Average {
  import opened Basics

  const HALF := 0x8000_0000_0000_0000
  const MAP_MAX := 1000

  /** The latencies folded into the two averages; both kinds count. */
  datatype Sample = Written(latency: int) | Exited(latency: int)

  function ToU64(x: int): (r: nat)
    ensures r < U64
    ensures 0 <= x < U64 ==> r == x
    ensures -U64 <= x < 0 ==> r == x + U64
  {
    x % U64
  }

  function ToS64(x: int): (r: int)
    ensures -HALF <= r < HALF
    ensures -HALF <= x < HALF ==> r == x
    ensures HALF <= x < HALF + U64 ==> r == x - U64
  {
    (x + HALF) % U64 - HALF
  }

  /** A signed difference divided by an unsigned count is an unsigned division; dividing by zero
      gives zero. */
  function Share(diff: int, count: nat): nat {
    if ToU64(count + 1) == 0 then 0 else ToU64(diff) / ToU64(count + 1)
  }

  function NextAverage(avg: int, latency: int, count: nat): int {
    ToS64(avg + Share(latency - avg, count))
  }

  /** The write average after all samples. */
  function WriteAverage(samples: seq<Sample>): int {
    if samples == [] then 0
    else
      var n := |samples| - 1;
      match samples[n]
      case Written(latency) => NextAverage(WriteAverage(samples[..n]), latency, ToU64(n))
      case Exited(_) => WriteAverage(samples[..n])
  }

  /** The exit value: each share replaces the last one. */
  function ExitValue(samples: seq<Sample>): int {
    if samples == [] then 0
    else
      var n := |samples| - 1;
      match samples[n]
      case Written(_) => ExitValue(samples[..n])
      case Exited(latency) => ToS64(Share(latency - ExitValue(samples[..n]), ToU64(n)))
  }

  function Sum(samples: seq<Sample>): int {
    if samples == [] then 0 else Sum(samples[..|samples| - 1]) + samples[|samples| - 1].latency
  }

  class Latencies {
    var startMap: map<nat, nat>
    var count: nat
    var latencyToWrite: int
    var latencyToFsyncExit: int
    ghost var samples: seq<Sample>

    ghost predicate Valid()
      reads this
    {
      && count == ToU64(|samples|)
      && latencyToWrite == WriteAverage(samples)
      && latencyToFsyncExit == ExitValue(samples)
      && |startMap| <= MAP_MAX
    }

    constructor ()
      ensures Valid() && samples == [] && startMap == map[]
    {
      startMap, count, latencyToWrite, latencyToFsyncExit, samples := map[], 0, 0, 0, [];
    }

    method EnterFsync(thread: nat, ns: nat)
      requires Valid()
      modifies `startMap
      ensures Valid()
      ensures startMap == if thread in old(startMap) || |old(startMap)| < 1000 then old(startMap)[thread := ns]
                          else old(startMap)
    {
      if thread in startMap || |startMap| < MAP_MAX {
        startMap := startMap[thread := ns];
      }
    }

    method Writeback(thread: nat, ns: nat)
      requires Valid()
      modifies `count, `latencyToWrite, `samples
      ensures Valid()
      ensures samples == old(samples) + if thread in startMap then [Written(ToS64(ns - startMap[thread]))] else []
      ensures count == ToU64(|samples|) && latencyToWrite == WriteAverage(samples)
    {
      if thread !in startMap {
        return;
      }
      hide ToU64, ToS64, Share, NextAverage;
      var latency := ToS64(ns - startMap[thread]);
      Appended(samples, Written(latency));
      latencyToWrite := NextAverage(latencyToWrite, latency, count);
      count := ToU64(count + 1);
      samples := samples + [Written(latency)];
    }

    method ExitFsync(thread: nat, ns: nat)
      requires Valid()
      modifies this
      ensures Valid() && startMap == old(startMap) - {thread}
      ensures samples == old(samples) +
                if thread in old(startMap) then [Exited(ToS64(ns - old(startMap)[thread]))] else []
      ensures count == ToU64(|samples|) && latencyToWrite == WriteAverage(samples) && latencyToFsyncExit == ExitValue(samples)
    {
      if thread !in startMap {
        assert startMap == startMap - {thread};
        return;
      }
      hide ToU64, ToS64, Share, NextAverage;
      var latency := ToS64(ns - startMap[thread]);
      Appended(samples, Exited(latency));
      latencyToFsyncExit := ToS64(Share(latency - latencyToFsyncExit, count));
      count := ToU64(count + 1);
      samples := samples + [Exited(latency)];
      Removed(startMap, thread);
      startMap := startMap - {thread};
    }
  }

  lemma Appended(samples: seq<Sample>, s: Sample)
    ensures (samples + [s])[..|samples|] == samples
    ensures ToU64(ToU64(|samples|) + 1) == ToU64(|samples| + 1)
  {
  }

  lemma Removed(m: map<nat, nat>, k: nat)
    requires k in m
    ensures |m - {k}| < |m|
  {
    assert (m - {k}).Keys == m.Keys - {k};
    assert |(m - {k}).Keys| == |m.Keys| - 1;
    assert |m - {k}| == |(m - {k}).Keys| && |m| == |m.Keys|;
  }

  // ---------- One step ----------

  lemma Grows(m: nat, n: nat, q: nat)
    requires m <= n
    ensures m * q <= n * q
  {
    assert n * q == m * q + (n - m) * q;
  }

  /** One step for any two signed latencies: the difference, read as an unsigned number of 64 bits, is
      divided by the new count, and the sum wraps back to a signed number. */
  lemma {:induction false} StepExactly(avg: int, latency: int, count: nat) returns (q: nat, rest: nat)
    requires -HALF <= avg < HALF && -HALF <= latency < HALF && count < U64 - 1
    ensures var u := if latency >= avg then latency - avg else latency - avg + 0x1_0000_0000_0000_0000;
            u == (count + 1) * q + rest && rest <= count
    ensures var next := NextAverage(avg, latency, count);
            && -0x8000_0000_0000_0000 <= next < 0x8000_0000_0000_0000
            && (next == avg + q || next == avg + q - 0x1_0000_0000_0000_0000)
  {
    hide ToS64, Share;
    var u := if latency >= avg then latency - avg else latency - avg + U64;
    q, rest := Divide(u, count + 1);
    ShareOf(latency - avg, u, count);
  }

  lemma ShareOf(diff: int, u: nat, count: nat)
    requires count < U64 - 1 && u == if diff >= 0 then diff else diff + U64
    requires u < U64
    ensures Share(diff, count) == u / (count + 1)
  {
    hide ToU64;
    assert ToU64(count + 1) == count + 1 && ToU64(diff) == u;
  }

  lemma {:induction false} Divide(u: nat, n: nat) returns (q: nat, rest: nat)
    requires n > 0
    ensures q == u / n && u == n * q + rest && rest < n && q <= u
  {
    q, rest := u / n, u % n;
    Grows(1, n, q);
  }

  lemma UpwardStep(avg: int, latency: int, count: nat)
    requires 0 <= avg <= latency < HALF && count < HALF
    ensures var next := NextAverage(avg, latency, count);
            && avg <= next <= latency
            && (count + 1) * next <= count * avg + latency <= (count + 1) * next + count
  {
    var d, n := latency - avg, count + 1;
    var q, rest := Divide(d, n);
    assert n * (avg + q) == n * avg + n * q;
  }

  lemma DownwardShare(diff: int, count: nat)
    requires -HALF < diff < 0 && 0 < count < HALF
    ensures 1 <= Share(diff, count) <= HALF
    ensures count >= 2 ==> Share(diff, count) < HALF
    ensures count == 1 ==> Share(diff, count) >= HALF + diff
  {
    hide ToU64;
    var u, n := diff + U64, count + 1;
    var q, rest := Divide(u, n);
    assert Share(diff, count) == q by { assert ToU64(n) == n && ToU64(diff) == u; }
    Grows(2, n, q);
    if count >= 2 {
      Grows(3, n, q);
    }
  }

  /** The new average lies between the old one and the sample exactly if the sample is not below
      the old average, or is the first: below it, the unsigned division overshoots. */
  lemma StepBetweenIff(avg: int, latency: int, count: nat)
    requires 0 <= avg < HALF && 0 <= latency < HALF && count < HALF
    ensures var next := NextAverage(avg, latency, count);
            (avg <= next <= latency || latency <= next <= avg) <==> (latency >= avg || count == 0)
  {
    if latency >= avg {
      UpwardStep(avg, latency, count);
    } else if count == 0 {
      assert ToU64(latency - avg) / 1 == latency - avg + U64;
    } else {
      DownwardShare(latency - avg, count);
    }
  }

  // ---------- Whole runs ----------

  /** No write sample is below the average it meets; exits may come in between. */
  ghost predicate Climbing(samples: seq<Sample>) {
    samples != [] ==>
      var n := |samples| - 1;
      && Climbing(samples[..n])
      && (samples[n].Written? ==> WriteAverage(samples[..n]) <= samples[n].latency < HALF)
  }

  ghost predicate RisingWrites(samples: seq<Sample>) {
    && (forall i :: 0 <= i < |samples| && samples[i].Written? ==> 0 <= samples[i].latency < HALF)
    && (forall i, j :: 0 <= i < j < |samples| && samples[i].Written? && samples[j].Written? ==>
          samples[i].latency <= samples[j].latency)
  }

  ghost predicate NoExits(samples: seq<Sample>) {
    forall i :: 0 <= i < |samples| ==> samples[i].Written?
  }

  /** n * avg <= sum <= n * avg + n (n - 1) / 2 after n climbing samples without exits. */
  lemma {:induction false} AverageBound(samples: seq<Sample>)
    requires Climbing(samples) && NoExits(samples) && |samples| < HALF
    ensures var n, avg := |samples|, WriteAverage(samples);
            && avg >= 0
            && n * avg <= Sum(samples)
            && 2 * Sum(samples) <= 2 * (n * avg) + n * (n - 1)
  {
    hide NextAverage;
    if samples != [] {
      var n := |samples| - 1;
      AverageBound(samples[..n]);
      UpwardStep(WriteAverage(samples[..n]), samples[n].latency, n);
      BoundStep(n, WriteAverage(samples[..n]), WriteAverage(samples), samples[n].latency, Sum(samples[..n]));
    }
  }

  lemma BoundStep(n: nat, avg: int, next: int, latency: int, sum: int)
    requires n * avg <= sum && 2 * sum <= 2 * (n * avg) + n * (n - 1)
    requires (n + 1) * next <= n * avg + latency <= (n + 1) * next + n
    ensures (n + 1) * next <= sum + latency
    ensures 2 * (sum + latency) <= 2 * ((n + 1) * next) + (n + 1) * n
  {
    assert (n + 1) * n == n * (n - 1) + 2 * n;
  }

  /** With exits in between, on the shared count, the write average of climbing samples never
      exceeds the largest one. */
  lemma {:induction false} NeverAboveLargest(samples: seq<Sample>, bound: int)
    requires Climbing(samples) && |samples| < HALF && 0 <= bound < HALF
    requires forall i :: 0 <= i < |samples| && samples[i].Written? ==> samples[i].latency <= bound
    ensures 0 <= WriteAverage(samples) <= bound
  {
    hide NextAverage;
    if samples != [] {
      var n := |samples| - 1;
      NeverAboveLargest(samples[..n], bound);
      if samples[n].Written? {
        UpwardStep(WriteAverage(samples[..n]), samples[n].latency, n);
      }
    }
  }

  /** Non-decreasing latencies climb, exits or not. */
  lemma {:induction false} RisingClimbs(samples: seq<Sample>)
    requires RisingWrites(samples) && |samples| < HALF
    ensures Climbing(samples)
  {
    hide NextAverage;
    if samples != [] {
      var n := |samples| - 1;
      RisingClimbs(samples[..n]);
      if samples[n].Written? {
        NeverAboveLargest(samples[..n], samples[n].latency);
      }
    }
  }

  /** Non-decreasing latencies, no exit in between: the average is at most (n - 1) / 2 below the
      true mean, and never above it. */
  lemma RisingAverageBound(samples: seq<Sample>)
    requires RisingWrites(samples) && NoExits(samples) && |samples| < HALF
    ensures var n, avg := |samples|, WriteAverage(samples);
            n * avg <= Sum(samples) && 2 * Sum(samples) <= 2 * (n * avg) + n * (n - 1)
  {
    RisingClimbs(samples);
    AverageBound(samples);
  }

  /** The exit value is no average: of two equal latencies the second brings it to zero. */
  lemma ExitValueOfEquals(latency: int)
    requires 0 <= latency < HALF
    ensures ExitValue([Exited(latency)]) == latency
    ensures ExitValue([Exited(latency), Exited(latency)]) == 0
  {
    var one, two := [Exited(latency)], [Exited(latency), Exited(latency)];
    assert one[..0] == [] && two[..1] == one;
  }
}
