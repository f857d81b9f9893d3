/** The pread, send and recv hooks that batch calls into io_uring (IO_syscall_patch/backup.bpf.c). */
module BatchHooks {
  import opened Basics
  import opened World
  import opened Uring
  import opened ChainOrder
  import opened Deferral

  const MAP_MAX := 10000
  const RING_DEPTH := 1024

  datatype CheckData = CheckData(pid: int, fd: int, iIno: int, seqNum: nat, dependsOn: nat, res: nat)

  datatype Issued = Issued(pid: int, op: HookOp)

  /** bpf_map_update_elem on a hash map: a new key is turned down when the map is full. */
  function MapUpdate<K, V>(m: map<K, V>, max: nat, k: K, v: V): map<K, V> {
    if k in m || |m| < max then m[k := v] else m
  }

  function IssuedOps(s: seq<Issued>): (r: seq<Op>)
    ensures |r| == |s| && forall i :: 0 <= i < |s| ==> r[i] == s[i].op
  {
    seq(|s|, i requires 0 <= i < |s| => s[i].op)
  }

  /** The submission queue that holds the calls `s`. */
  function Sqes(s: seq<Issued>): (r: seq<Sqe>)
    ensures s == [] ==> r == []
    ensures |r| == |s| && forall i :: 0 <= i < |s| ==> r[i] == Sqe(s[i].op, !s[i].op.Recv?)
  {
    seq(|s|, i requires 0 <= i < |s| => Sqe(s[i].op, !s[i].op.Recv?))
  }

  /** What the slot of the `index`-th accepted call records. */
  function Record(call: Issued, index: nat): CheckData {
    CheckData(call.pid, call.op.fd, call.op.buf, index % U32, 0, 0)
  }

  /** The value the caller is given at once. */
  function Ack(op: HookOp): int {
    if op.Read? then 22 else op.n
  }

  /** The value a caller is given at once is what the plain call would return exactly if: a pread has
      22 bytes to read, a send has a socket and a buffer, a recv has all it asks for. */
  lemma AckTrueIff(op: HookOp, w: World)
    ensures Ack(op) == Best(op, w) <==>
            && 0 <= op.buf && op.buf + op.n <= |w.mem|
            && match op {
                 case Read(fd, _, n, off) => fd in w.files && off >= 0 && Min(n, |w.files[fd]| - off) == 22
                 case Send(fd, _, _) => fd in w.outbox
                 case Recv(fd, _, n) => fd in w.inbox && n <= |w.inbox[fd]|
               }
  {
  }

  lemma BoundedKeys(keys: set<int>, n: nat)
    requires forall k :: k in keys ==> 1 <= k <= n
    ensures |keys| <= n
  {
    if n == 0 {
      assert forall k :: k !in keys;
      assert keys == {};
    } else {
      BoundedKeys(keys - {n}, n - 1);
    }
  }

  lemma NoSqes()
    ensures Sqes([]) == []
  {
  }

  lemma SqesSubmit(s: seq<Issued>)
    ensures Queued(Sqes(s)) == IssuedOps(s)
    ensures Links(Sqes(s)) == HookLinks(IssuedOps(s))
  {
  }

  /** Slots 1, 2, ... hold the waiting calls in call order, numbered from `base` on. */
  ghost predicate Slots(m: map<int, CheckData>, base: nat, waiting: seq<Issued>) {
    forall k :: 1 <= k <= |waiting| ==> k in m && m[k] == Record(waiting[k - 1], base + k - 1)
  }

  ghost predicate KeysWithin(m: map<int, CheckData>) {
    forall k :: k in m ==> 1 <= k <= BATCH_SIZE
  }

  /** The map is never full, so the newest call always finds its slot. */
  lemma SlotAdded(m: map<int, CheckData>, base: nat, waiting: seq<Issued>, call: Issued)
    requires Slots(m, base, waiting) && KeysWithin(m) && |waiting| < BATCH_SIZE
    ensures var k, r := |waiting| + 1, Record(call, base + |waiting|);
            var m' := MapUpdate(m, 10000, k, r);
            Slots(m', base, waiting + [call]) && KeysWithin(m') && k in m' && m'[k] == r
  {
    BoundedKeys(m.Keys, BATCH_SIZE);
    assert |m| == |m.Keys|;
  }

  /** Each of the calls was completed exactly once. */
  ghost predicate Conserved(done: seq<Cqe>, calls: seq<Issued>) {
    multiset(Ops(done)) == multiset(IssuedOps(calls))
  }

  lemma ConservedAppend(done: seq<Cqe>, posted: seq<Cqe>, calls: seq<Issued>, batch: seq<Issued>)
    requires Conserved(done, calls) && Conserved(posted, batch)
    ensures Conserved(done + posted, calls + batch)
  {
    assert Ops(done + posted) == Ops(done) + Ops(posted);
    assert IssuedOps(calls + batch) == IssuedOps(calls) + IssuedOps(batch);
  }

  /** Every accepted call was completed, waits, or is lost. */
  ghost predicate Accounted(accepted: seq<Issued>, done: seq<Cqe>, flushed: seq<Issued>, waiting: seq<Issued>,
                            lost: seq<Issued>)
  {
    Conserved(done, flushed) && multiset(accepted) == multiset(flushed) + multiset(waiting) + multiset(lost)
  }

  lemma AccountedOneMore(accepted: seq<Issued>, done: seq<Cqe>, flushed: seq<Issued>, waiting: seq<Issued>,
                         lost: seq<Issued>, call: Issued)
    requires Accounted(accepted, done, flushed, waiting, lost)
    ensures Accounted(accepted + [call], done, flushed, waiting + [call], lost)
  {
  }

  lemma AccountedFlush(accepted: seq<Issued>, done: seq<Cqe>, earlier: seq<Issued>, flushed: seq<Issued>,
                       waiting: seq<Issued>, lost: seq<Issued>, posted: seq<Cqe>)
    requires Accounted(accepted, done, earlier + flushed, waiting, lost) && Conserved(posted, waiting)
    ensures Accounted(accepted, done + posted, earlier + (flushed + waiting), [], lost)
  {
    ConservedAppend(done, posted, earlier + flushed, waiting);
    assert earlier + (flushed + waiting) == earlier + flushed + waiting;
  }

  lemma AccountedStart(accepted: seq<Issued>, done: seq<Cqe>, earlier: seq<Issued>, flushed: seq<Issued>,
                       waiting: seq<Issued>, lost: seq<Issued>)
    requires Accounted(accepted, done, earlier + flushed, waiting, lost)
    ensures Accounted(accepted, done, (earlier + flushed) + [], [], lost + waiting)
  {
    assert (earlier + flushed) + [] == earlier + flushed;
  }

  // ---------- Several sessions ----------

  datatype Happening = Start | End | Running(e: Event)

  /** The pending calls a happening leaves, told by whether the hooks are on and how many there were. */
  function NextCount(h: Happening, on: bool, n: nat): nat {
    if !h.Running? then 0
    else if !on || !Taken(h.e) then n
    else if n + 1 < BATCH_SIZE then n + 1
    else 0
  }

  /** Every start meets an operation count of zero. */
  predicate CleanStarts(hs: seq<Happening>, on: bool, n: nat) {
    hs != [] ==> (hs[0].Start? ==> n == 0) && CleanStarts(hs[1..], on || hs[0].Start?, NextCount(hs[0], on, n))
  }

  lemma NextHappening(hs: seq<Happening>, i: nat, on: bool, n: nat)
    requires i < |hs|
    ensures CleanStarts(hs[i..], on, n) <==>
              (hs[i].Start? ==> n == 0) && CleanStarts(hs[i + 1..], on || hs[i].Start?, NextCount(hs[i], on, n))
  {
    assert hs[i..][0] == hs[i] && hs[i..][1..] == hs[i + 1..];
  }

  /** `places` tells whose completion each is: every call of the batch has one, and where a later
      call completes before an earlier one there is a recv from the earlier one up to the later. */
  ghost predicate InRuns(batch: seq<Issued>, posted: seq<Cqe>, places: seq<nat>) {
    && |places| == |posted| == |batch|
    && (forall p, q :: 0 <= p < q < |places| ==> places[p] != places[q])
    && (forall p :: 0 <= p < |places| ==> places[p] < |batch| && posted[p].op == batch[places[p]].op)
    && (forall p, q :: 0 <= p < q < |places| && places[q] < places[p] ==>
          exists k :: places[q] <= k < places[p] && batch[k].op.Recv?)
  }

  ghost predicate CompletedInRuns(batch: seq<Issued>, posted: seq<Cqe>) {
    exists places :: InRuns(batch, posted, places)
  }

  lemma FlushedInRuns(batch: seq<Issued>, posted: seq<Cqe>)
    requires Merge(Chains(IssuedOps(batch), HookLinks(IssuedOps(batch))), Ops(posted))
    ensures CompletedInRuns(batch, posted)
  {
    hide Chains, Merge;
    var ops, link := IssuedOps(batch), HookLinks(IssuedOps(batch));
    var places := MergeArranges(ops, link, Ops(posted));
    forall p, q | 0 <= p < q < |places| && places[q] < places[p]
      ensures exists k :: places[q] <= k < places[p] && batch[k].op.Recv?
    {
      var k :| places[q] <= k < places[p] && !link[k];
      assert batch[k].op.Recv?;
    }
    assert InRuns(batch, posted, places);
  }

  /** Of distinct calls the kernel can complete a batch in exactly the orders that keep every two
      calls without a recv from the first up to the second. */
  lemma HookOrdersIff(batch: seq<Op>, order: seq<Op>, w: World)
    requires Distinct(batch) && NeverSevers(order, w)
    ensures Takes(Launched(batch, w), order) <==>
              && multiset(order) == multiset(batch)
              && forall i: nat, j: nat :: NoRecvBetween(batch, i, j) ==> Before(order, batch[i], batch[j])
  {
    hide Takes, Merge, Chains, Before;
    var link := HookLinks(batch);
    MergeIff(batch, link, order);
    assert forall i: nat, j: nat :: Linked(link, i, j) <==> NoRecvBetween(batch, i, j);
    if Takes(Launched(batch, w), order) {
      TakesMerge(Launched(batch, w), order);
    }
    if Merge(Chains(batch, link), order) {
      var sched := MergeReached(Launched(batch, w), order);
    }
  }

  predicate NoRecvBetween(batch: seq<Op>, i: nat, j: nat) {
    i < j < |batch| && forall k :: i <= k < j ==> !batch[k].Recv?
  }

  /** The completions added to `before` are those of the batch. */
  ghost predicate FlushedInto(batch: seq<Issued>, before: seq<Cqe>, after: seq<Cqe>, w: World, w': World) {
    exists posted ::
      after == before + posted && Flushed(IssuedOps(batch), posted, w, w') && CompletedInRuns(batch, posted)
  }

  predicate Quiescent(r: Ring) {
    r.depth == RING_DEPTH && r.flying == [] && r.cq == []
  }

  /** Submit, then wait once per counted call. */
  method FlushBatch(r: Ring, count: nat, ghost batch: seq<Issued>) returns (r': Ring, ghost posted: seq<Cqe>)
    requires Quiescent(r) && r.sq == Sqes(batch) && count == |batch|
    ensures r' == NewRing(1024, r'.world)
    ensures Flushed(IssuedOps(batch), posted, r.world, r'.world) && r'.world == Replay(posted, r.world)
    ensures multiset(Ops(posted)) == multiset(IssuedOps(batch)) && CompletedInRuns(batch, posted)
  {
    SqesSubmit(batch);
    r', posted := SubmitAndReap(r, count);
    ghost var ops := IssuedOps(batch);
    assert Submit(r).flying == Chains(ops, HookLinks(ops));
    MergeKeepsAll(Chains(ops, HookLinks(ops)), Ops(posted));
    FlushedInRuns(batch, posted);
  }

  /** What one event of a program does under the hooks. */
  ghost predicate StepEffect(e: Event, pending: seq<Op>, posted: seq<Cqe>, w: World, w': World) {
    if !Taken(e) then w' == Tick(e, w)
    else if |pending| + 1 < BATCH_SIZE then w' == w
    else Flushed(pending + [e.op], posted, w, w')
  }

  lemma StepRefinesDeferred(events: seq<Event>, i: nat, pending: seq<Op>, posted: seq<Cqe>, w: World, w': World)
    requires i < |events| && OrderlyBatches(events[i..], pending)
    requires StepEffect(events[i], pending, posted, w, w')
    ensures OrderlyBatches(events[i + 1..], NextPending(events[i], pending))
    ensures AllFull(posted) ==>
              Deferred(events[i + 1..], NextPending(events[i], pending), w') == Deferred(events[i..], pending, w)
  {
    var rest, e := events[i..], events[i];
    assert rest[0] == e && rest[1..] == events[i + 1..];
    if AllFull(posted) && Taken(e) && |pending| + 1 >= BATCH_SIZE {
      OrderlyFlush(pending + [e.op], posted, w, w');
    }
  }

  class Hooks {
    var global: bool
    var opCount: nat
    var globalSeqNum: nat
    var inodeMap: map<int, CheckData>
    var ring: Ring
    ghost var total: nat            // calls accepted since the last start
    ghost var flushed: seq<Issued>  // those that have run
    ghost var waiting: seq<Issued>  // those that have not
    ghost var done: seq<Cqe>        // every completion taken off a ring
    ghost var accepted: seq<Issued> // every call ever accepted
    ghost var earlier: seq<Issued>  // those that ran before the last start
    ghost var lost: seq<Issued>     // those that a start dropped

    /** Everything but the call counter and the submission queue. */
    ghost predicate Settings()
      reads `global, `globalSeqNum, `inodeMap, `ring, `total, `flushed, `waiting, `done, `accepted, `earlier, `lost
    {
      && total == |flushed| + |waiting|
      && globalSeqNum == total % U32
      && Slots(inodeMap, |flushed|, waiting)
      && KeysWithin(inodeMap)
      && (!global ==> flushed == [] && waiting == [])
      && Quiescent(ring)
      && Accounted(accepted, done, earlier + flushed, waiting, lost)
    }

    /** What holds between hooks. */
    ghost predicate Valid()
      reads this
    {
      Settings() && opCount == |waiting| < BATCH_SIZE && ring.sq == Sqes(waiting)
    }

    /** The call was queued and counted; a full batch was flushed and reaped. */
    twostate predicate Took(call: Issued)
      reads this
    {
      && accepted == old(accepted) + [call] && earlier == old(earlier) && lost == old(lost)
      && if |old(waiting)| + 1 < 1024 then
        && waiting == old(waiting) + [call] && flushed == old(flushed)
        && ring.world == old(ring.world) && done == old(done)
      else
        && waiting == [] && flushed == old(flushed) + (old(waiting) + [call])
        && FlushedInto(old(waiting) + [call], old(done), done, old(ring.world), ring.world)
    }

    constructor (w: World)
      ensures Valid() && !global && flushed == [] && waiting == [] && done == [] && ring.world == w
    {
      global := false;
      opCount, globalSeqNum, total := 0, 0, 0;
      inodeMap := map[];
      ring := NewRing(RING_DEPTH, w);
      flushed, waiting, done := [], [], [];
      accepted, earlier, lost := [], [], [];
    }

    /** Submit, then wait once per counted call.  The counter itself is left. */
    method Flush()
      requires Settings() && opCount == |waiting| && ring.sq == Sqes(waiting)
      modifies `ring, `done, `flushed, `waiting
      ensures Settings() && ring.sq == [] && waiting == [] && flushed == old(flushed + waiting)
      ensures FlushedInto(old(waiting), old(done), done, old(ring.world), ring.world)
    {
      hide Conserved, Accounted, Flushed, CompletedInRuns, KeysWithin, Sqes;
      ghost var posted;
      ring, posted := FlushBatch(ring, opCount, waiting);
      NoSqes();
      AccountedFlush(accepted, done, earlier, flushed, waiting, lost, posted);
      done := done + posted;
      flushed, waiting := flushed + waiting, [];
    }

    method SubmitIfBatchFull() returns (full: bool)
      requires Settings() && opCount == |waiting| && ring.sq == Sqes(waiting)
      modifies `ring, `done, `flushed, `waiting
      ensures Settings() && ring.sq == Sqes(waiting)
      ensures full == (opCount >= 1024)
      ensures !full ==> ring == old(ring) && done == old(done) && waiting == old(waiting) && flushed == old(flushed)
      ensures full ==>
                && waiting == [] && flushed == old(flushed + waiting)
                && FlushedInto(old(waiting), old(done), done, old(ring.world), ring.world)
    {
      if opCount < BATCH_SIZE {
        return false;
      }
      Flush();
      return true;
    }

    /** Numbers the call, counts it and writes its slot. */
    method Note(op: CheckData, ghost call: Issued)
      requires Settings() && |waiting| < BATCH_SIZE && global && opCount == |waiting|
      requires op == CheckData(call.pid, call.op.fd, call.op.buf, 0, 0, 0)
      modifies `globalSeqNum, `total, `opCount, `inodeMap, `waiting, `accepted
      ensures Settings() && opCount == |waiting|
      ensures waiting == old(waiting) + [call] && accepted == old(accepted) + [call]
      ensures opCount in inodeMap && inodeMap[opCount] == Record(call, old(total))
    {
      hide Conserved, Accounted, KeysWithin, Slots, MapUpdate;
      AccountedOneMore(accepted, done, earlier + flushed, waiting, lost, call);
      SlotAdded(inodeMap, |flushed|, waiting, call);
      NextNumber(total);
      var stamped := op.(seqNum := globalSeqNum);
      globalSeqNum := (globalSeqNum + 1) % U32;
      total := total + 1;
      opCount := opCount + 1;
      inodeMap := MapUpdate(inodeMap, MAP_MAX, opCount, stamped);
      waiting, accepted := waiting + [call], accepted + [call];
    }

    method AddPendingOp(op: CheckData, ghost call: Issued) returns (stale: Option<CheckData>)
      requires Settings() && opCount == |waiting| < BATCH_SIZE && global
      requires ring.sq == Sqes(waiting + [call])
      requires op == CheckData(call.pid, call.op.fd, call.op.buf, 0, 0, 0)
      modifies this
      ensures Valid() && Took(call) && global
      ensures stale == Some(CheckData(call.pid, call.op.fd, call.op.buf, old(total) % 0x1_0000_0000, 0, 0))
      ensures forall k :: 1 <= k <= |waiting| ==>
                && k in inodeMap
                && inodeMap[k] == CheckData(waiting[k - 1].pid, waiting[k - 1].op.fd, waiting[k - 1].op.buf,
                                            (|flushed| + k - 1) % 0x1_0000_0000, 0, 0)
    {
      hide FlushedInto, Sqes, Conserved, Accounted, Quiescent;
      Note(op, call);
      var full := SubmitIfBatchFull();

      // The slot just written is always found, so the reset below is never skipped.
      if opCount !in inodeMap {
        return None;
      }
      stale := Some(inodeMap[opCount]);
      if full {
        opCount := 0;
      }
    }

    method HandleUnbatchedOps()
      requires Valid()
      modifies `opCount, `ring, `done, `flushed, `waiting
      ensures Valid() && waiting == [] && flushed == old(flushed + waiting)
      ensures FlushedInto(old(waiting), old(done), done, old(ring.world), ring.world)
    {
      hide Settings, FlushedInto, Sqes;
      Flush();
      opCount := 0;
      NoSqes();
    }

    /** The hook on pread.  `refused`: the submission helper had a reason of its own to fail. */
    method PreadHook(pid: int, fd: int, buf: int, n: nat, offset: int, refused: bool)
      returns (override: Option<int>)
      requires Valid()
      modifies this
      ensures Valid() && global == old(global)
      ensures override == if global && fd >= 3 && !refused then Some(22) else None
      ensures override.Some? ==> Took(Issued(pid, Read(fd, buf, n, offset)))
      ensures override.None? ==> unchanged(this)
    {
      if !global || fd < 3 {
        return None;
      }
      var op := CheckData(pid, fd, buf, 0, 0, 0);
      if refused || !HasRoom(ring) {
        return None;
      }
      ghost var call := Issued(pid, Read(fd, buf, n, offset));
      ring := Enqueue(ring, Read(fd, buf, n, offset));
      ring := SetLink(ring);
      assert ring.sq == Sqes(waiting + [call]);
      var _ := AddPendingOp(op, call);
      return Some(22);
    }

    method SendHook(pid: int, fd: int, buf: int, n: nat, refused: bool) returns (override: Option<int>)
      requires Valid()
      modifies this
      ensures Valid() && global == old(global)
      ensures override == if global && fd >= 3 && !refused then Some(n) else None
      ensures override.Some? ==> Took(Issued(pid, Send(fd, buf, n)))
      ensures override.None? ==> unchanged(this)
    {
      if !global || fd < 3 {
        return None;
      }
      var op := CheckData(pid, fd, buf, 0, 0, 0);
      if refused || !HasRoom(ring) {
        return None;
      }
      ghost var call := Issued(pid, Send(fd, buf, n));
      ring := Enqueue(ring, Send(fd, buf, n));
      ring := SetLink(ring);
      assert ring.sq == Sqes(waiting + [call]);
      var _ := AddPendingOp(op, call);
      return Some(n);
    }

    method RecvHook(pid: int, fd: int, buf: int, n: nat, refused: bool) returns (override: Option<int>)
      requires Valid()
      modifies this
      ensures Valid() && global == old(global)
      ensures override == if global && fd >= 3 && !refused then Some(n) else None
      ensures override.Some? ==> Took(Issued(pid, Recv(fd, buf, n)))
      ensures override.None? ==> unchanged(this)
    {
      if !global || fd < 3 {
        return None;
      }
      var op := CheckData(pid, fd, buf, 0, 0, 0);
      if refused || !HasRoom(ring) {
        return None;
      }
      ghost var call := Issued(pid, Recv(fd, buf, n));
      ring := Enqueue(ring, Recv(fd, buf, n));
      assert ring.sq == Sqes(waiting + [call]);
      var _ := AddPendingOp(op, call);
      return Some(n);
    }

    /** Flushes what is left; the hooks stay on. */
    method EndHook()
      requires Valid()
      modifies `opCount, `ring, `done, `flushed, `waiting
      ensures Valid() && waiting == [] && flushed == old(flushed + waiting)
      ensures FlushedInto(old(waiting), old(done), done, old(ring.world), ring.world)
    {
      HandleUnbatchedOps();
    }

    /** Sets up a new ring and resets both counters; the slot map is kept.  Calls that wait are
        lost: they were acknowledged and will not run. */
    method StartHook()
      requires Valid()
      modifies this
      ensures Valid() && global && flushed == [] && waiting == []
      ensures lost == old(lost + waiting) && earlier == old(earlier + flushed)
      ensures accepted == old(accepted) && done == old(done)
      ensures ring.world == old(ring.world) && inodeMap == old(inodeMap)
    {
      hide Accounted;
      AccountedStart(accepted, done, earlier, flushed, waiting, lost);
      ring := NewRing(RING_DEPTH, ring.world);
      global := true;
      opCount := 0;
      globalSeqNum, total := 0, 0;
      earlier, lost := earlier + flushed, lost + waiting;
      flushed, waiting := [], [];
    }

    /** A call the hooks leave alone. */
    method Native(op: HookOp) returns (result: int)
      requires Valid()
      modifies `ring
      ensures Valid() && result == Best(op, old(ring.world)) && ring == old(ring).(world := Do(op, old(ring.world)))
    {
      result := Best(op, ring.world);
      ring := ring.(world := Do(op, ring.world));
    }

    /** A hooked call: queued and acknowledged, or else run natively, never both. */
    method Syscall(pid: int, op: HookOp, refused: bool) returns (result: int)
      requires Valid()
      modifies this
      ensures Valid() && global == old(global)
      ensures old(global) && Taken(Call(pid, op, refused)) ==>
                Took(Issued(pid, op)) && result == Ack(op)
      ensures !(old(global) && Taken(Call(pid, op, refused))) ==>
                && flushed == old(flushed) && waiting == old(waiting) && done == old(done)
                && accepted == old(accepted) && earlier == old(earlier) && lost == old(lost)
                && ring == old(ring).(world := Do(op, old(ring.world)))
                && result == Best(op, old(ring.world))
    {
      hide Settings, FlushedInto, Do, Best;
      var override;
      match op {
        case Read(fd, buf, n, off) => override := PreadHook(pid, fd, buf, n, off, refused);
        case Send(fd, buf, n) => override := SendHook(pid, fd, buf, n, refused);
        case Recv(fd, buf, n) => override := RecvHook(pid, fd, buf, n, refused);
      }
      match override {
        case Some(v) => result := v;
        case None =>
          result := Native(op);
      }
    }

    method Step(e: Event) returns (ghost posted: seq<Cqe>)
      requires Valid() && global
      modifies this
      ensures Valid() && global
      ensures IssuedOps(waiting) == NextPending(e, IssuedOps(old(waiting)))
      ensures done == old(done) + posted && lost == old(lost)
      ensures StepEffect(e, IssuedOps(old(waiting)), posted, old(ring.world), ring.world)
    {
      hide Settings, Flushed, Do, Best, Computed, CompletedInRuns;
      posted := [];
      match e {
        case Call(pid, op, refused) =>
          ghost var batch, before, w := waiting + [Issued(pid, op)], done, ring.world;
          assert IssuedOps(batch) == IssuedOps(waiting) + [op];
          var _ := Syscall(pid, op, refused);
          if Taken(e) && waiting == [] {
            posted :| done == before + posted && Flushed(IssuedOps(batch), posted, w, ring.world)
                    && CompletedInRuns(batch, posted);
          }
        case Compute(src, n, dst, f) => Calculate(src, n, dst, f);
      }
    }

    /** A whole program under the hooks, with the end hook behind it.  If no completion was
        short or failed, memory, files and streams end up as without the hooks. */
    method RunProgram(events: seq<Event>) returns (ghost posted: seq<Cqe>)
      requires Valid() && global && waiting == []
      modifies this
      ensures Valid() && waiting == []
      ensures done == old(done) + posted && lost == old(lost)
      ensures Quiet(events, []) && OrderlyBatches(events, []) && AllFull(posted) ==>
                ring.world == Immediate(events, old(ring.world))
    {
      hide OrderlyBatches, Deferred, Quiet, AllFull, Flushed, StepEffect, Settings, CompletedInRuns;
      ghost var w, sound := ring.world, OrderlyBatches(events, []);
      posted := [];
      assert events[0..] == events;
      for i := 0 to |events|
        invariant Valid() && global
        invariant done == old(done) + posted && lost == old(lost)
        invariant sound ==> OrderlyBatches(events[i..], IssuedOps(waiting))
        invariant sound && AllFull(posted) ==>
                    Deferred(events[i..], IssuedOps(waiting), ring.world) == Deferred(events, [], w)
      {
        ghost var pending, world := IssuedOps(waiting), ring.world;
        ghost var more := Step(events[i]);
        AllFullAppend(posted, more);
        if sound {
          StepRefinesDeferred(events, i, pending, more, world, ring.world);
        }
        posted := posted + more;
      }
      ghost var batch, world, before := waiting, ring.world, done;
      EndHook();
      ghost var more :| done == before + more && Flushed(IssuedOps(batch), more, world, ring.world)
                        && CompletedInRuns(batch, more);
      AllFullAppend(posted, more);
      if Quiet(events, []) && sound && AllFull(posted) && AllFull(more) {
        assert events[|events|..] == [];
        LastFlushRefinesDeferred(IssuedOps(batch), more, world, ring.world);
        DeferralPreservesMeaning(events, [], w);
      }
      posted := posted + more;
    }

    method Happen(h: Happening)
      requires Valid()
      modifies this
      ensures Valid() && global == (old(global) || h.Start?)
      ensures |waiting| == NextCount(h, old(global), |old(waiting)|)
      ensures lost == old(lost) + if h.Start? then old(waiting) else []
    {
      hide Settings, FlushedInto;
      assert lost + [] == lost;
      match h {
        case Start => StartHook();
        case End => EndHook();
        case Running(e) =>
          match e {
            case Call(pid, op, refused) => var _ := Syscall(pid, op, refused);
            case Compute(src, n, dst, f) => Calculate(src, n, dst, f);
          }
      }
    }

    method Calculate(src: int, n: nat, dst: int, f: seq<Byte> -> seq<Byte>)
      requires Valid()
      modifies `ring
      ensures Valid()
      ensures ring == old(ring).(world := Tick(Compute(src, n, dst, f), old(ring.world)))
    {
      ring := ring.(world := ring.world.(mem := Computed(src, n, dst, f, ring.world.mem)));
    }

    /** Over any sequence of starts, ends, calls and computing every accepted call completes once,
        waits or is lost; and none is lost exactly if every start meets a count of zero. */
    method Session(hs: seq<Happening>)
      requires Valid()
      modifies this
      ensures Valid()
      ensures lost == old(lost) <==> CleanStarts(hs, old(global), |old(waiting)|)
      ensures Conserved(done, earlier + flushed)
      ensures multiset(accepted) == multiset(earlier + flushed) + multiset(waiting) + multiset(lost)
    {
      hide Settings, CleanStarts;
      ghost var n := |waiting|;
      assert hs[0..] == hs;
      for i := 0 to |hs|
        invariant Valid() && old(lost) <= lost
        invariant CleanStarts(hs, old(global), n) <==> lost == old(lost) && CleanStarts(hs[i..], global, |waiting|)
      {
        NextHappening(hs, i, global, |waiting|);
        Happen(hs[i]);
      }
      assert hs[|hs|..] == [];
      NothingHappens(global, |waiting|);
      AccountsShown();
    }

    lemma AccountsShown()
      requires Settings()
      ensures Conserved(done, earlier + flushed)
      ensures multiset(accepted) == multiset(earlier + flushed) + multiset(waiting) + multiset(lost)
    {
    }
  }

  lemma NothingHappens(on: bool, n: nat)
    ensures CleanStarts([], on, n)
  {
  }
}
