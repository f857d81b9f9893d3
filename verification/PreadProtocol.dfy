/** The two processes that batch preads: probes that describe each pread in a ring buffer
    (IO_syscall_patch/user.bpf.c) and a consumer that runs them (IO_syscall_patch/user.c). */
module PreadProtocol {
  import opened Basics
  import opened World
  import opened Uring
  import opened Picks

  const MAX_PIDS := 1000
  const DEPTH := 1024

  datatype Info = Info(pid: int, fd: int, dest: int, size: nat, offset: int, seqNum: nat)

  datatype FdInfo = FdInfo(totalBytesToRead: nat, batchedPreads: nat, fd: int)

  // ---------- Accounting ----------

  function Count(log: seq<Info>, pid: int): nat {
    if log == [] then 0
    else Count(log[..|log| - 1], pid) + if log[|log| - 1].pid == pid then 1 else 0
  }

  /** Bytes asked for by one process. */
  function Asked(log: seq<Info>, pid: int): nat {
    if log == [] then 0
    else Asked(log[..|log| - 1], pid) + if log[|log| - 1].pid == pid then log[|log| - 1].size else 0
  }

  function CountIn(log: seq<Info>, pids: set<int>): nat {
    if log == [] then 0
    else CountIn(log[..|log| - 1], pids) + if log[|log| - 1].pid in pids then 1 else 0
  }

  ghost function Pids(log: seq<Info>): set<int> {
    set i | 0 <= i < |log| :: log[i].pid
  }

  lemma SomeMember(s: set<int>)
    requires s != {}
    ensures exists x :: x in s
  {
    assert (forall x :: x !in s) ==> s == {};
  }

  ghost function SumBatched(m: map<int, FdInfo>, pids: set<int>): nat
    requires pids <= m.Keys
  {
    if pids == {} then 0
    else
      SomeMember(pids);
      var pid :| pid in pids;
      m[pid].batchedPreads + SumBatched(m, pids - {pid})
  }

  lemma CountInSplit(log: seq<Info>, pids: set<int>, pid: int)
    requires pid in pids
    ensures CountIn(log, pids) == Count(log, pid) + CountIn(log, pids - {pid})
  {
    if log != [] {
      CountInSplit(log[..|log| - 1], pids, pid);
    }
  }

  lemma CountInBound(log: seq<Info>, pids: set<int>)
    ensures CountIn(log, pids) <= |log|
    ensures CountIn(log, pids) == |log| <==> Pids(log) <= pids
  {
    if log != [] {
      var last := |log| - 1;
      CountInBound(log[..last], pids);
      assert Pids(log) == Pids(log[..last]) + {log[last].pid};
    }
  }

  lemma CountPositive(log: seq<Info>, pid: int)
    ensures Count(log, pid) <= |log|
    ensures Count(log, pid) > 0 <==> pid in Pids(log)
  {
    if log != [] {
      var last := |log| - 1;
      CountPositive(log[..last], pid);
      assert Pids(log) == Pids(log[..last]) + {log[last].pid};
    }
  }

  ghost predicate Tallied(m: map<int, FdInfo>, log: seq<Info>) {
    && (forall pid :: pid in m ==>
          && m[pid].totalBytesToRead == Asked(log, pid) % U64
          && m[pid].batchedPreads == Count(log, pid) % U64)
    && m.Keys <= Pids(log)
    && |m| <= MAX_PIDS
    && (|m| < MAX_PIDS ==> Pids(log) <= m.Keys)
  }

  lemma {:induction false} SumIsCount(m: map<int, FdInfo>, pids: set<int>, log: seq<Info>)
    requires pids <= m.Keys
    requires forall pid :: pid in pids ==> m[pid].batchedPreads == Count(log, pid)
    ensures SumBatched(m, pids) == CountIn(log, pids)
  {
    if pids == {} {
      CountInEmpty(log);
    } else {
      forall pid | pid in pids
        ensures m[pid].batchedPreads + SumBatched(m, pids - {pid}) == CountIn(log, pids)
      {
        SumIsCount(m, pids - {pid}, log);
        CountInSplit(log, pids, pid);
      }
    }
  }

  lemma {:induction false} CountInEmpty(log: seq<Info>)
    ensures CountIn(log, {}) == 0
  {
    if log != [] {
      CountInEmpty(log[..|log| - 1]);
    }
  }

  lemma SubsetSize(a: set<int>, b: set<int>)
    requires a <= b
    ensures |a| <= |b|
    ensures a != b ==> |a| < |b|
  {
    assert b == a + (b - a);
    if b - a == {} {
      assert a == b;
    }
  }

  /** The per-process counts add up to all overridden preads exactly when no more than 1000
      processes issued some. */
  lemma TalliesAddUpIff(m: map<int, FdInfo>, log: seq<Info>)
    requires Tallied(m, log) && |log| < U64
    ensures SumBatched(m, m.Keys) == |log| <==> |Pids(log)| <= 1000
  {
    forall pid | pid in m ensures m[pid].batchedPreads == Count(log, pid) {
      CountPositive(log, pid);
    }
    SumIsCount(m, m.Keys, log);
    CountInBound(log, m.Keys);
    assert SumBatched(m, m.Keys) == |log| <==> Pids(log) <= m.Keys;
    assert |m.Keys| == |m|;
    SubsetSize(m.Keys, Pids(log));
    if Pids(log) <= m.Keys {
      assert Pids(log) == m.Keys;
    }
  }

  ghost predicate SeqNumsRise(infos: seq<Info>) {
    forall i, j :: 0 <= i < j < |infos| ==> infos[i].seqNum < infos[j].seqNum
  }

  /** Sequence numbers rise strictly exactly as long as they do not wrap. */
  lemma SeqNumsRiseIff(log: seq<Info>)
    requires forall i :: 0 <= i < |log| ==> log[i].seqNum == i % U32
    ensures SeqNumsRise(log) <==> |log| <= U32
  {
    if |log| > U32 {
      assert log[0].seqNum == 0 && log[U32].seqNum == 0;
    }
  }

  class Probes {
    var overridden: bool
    var globalSeq: nat
    var fdInfoMap: map<int, FdInfo>
    ghost var log: seq<Info>  // every overridden pread

    ghost predicate Valid()
      reads this
    {
      && globalSeq == |log| % U32
      && (forall i :: 0 <= i < |log| ==> log[i].seqNum == i % U32 && log[i].offset == 0)
      && Tallied(fdInfoMap, log)
    }

    constructor ()
      ensures Valid() && log == [] && !overridden
    {
      overridden, globalSeq, fdInfoMap, log := false, 0, map[], [];
      new;
      assert Pids(log) == {};
    }

    /** `matches`: the outcome of comparing the two type-name pointers. */
    method ReadS(matches: bool) returns (isOverridden: bool)
      requires Valid()
      modifies `overridden
      ensures Valid() && isOverridden == overridden == matches
    {
      overridden := matches;
      isOverridden := overridden;
    }

    /** Returns the message for the prepare ring buffer; the offset argument travels as `dest`. */
    method PreadRaw(pid: int, fd: int, offset: int, toRead: nat) returns (message: Option<Info>)
      requires Valid()
      modifies this
      ensures Valid() && overridden == old(overridden)
      ensures !overridden ==> message == None && log == old(log) && fdInfoMap == old(fdInfoMap)
      ensures overridden ==>
                && message == Some(Info(pid, fd, offset, toRead, 0, |old(log)| % U32))
                && log == old(log) + [message.value]
                && fdInfoMap.Keys == (if pid in old(fdInfoMap.Keys) || |old(fdInfoMap.Keys)| < 1000
                                      then old(fdInfoMap.Keys) + {pid} else old(fdInfoMap.Keys))
    {
      hide Tally, Tallied;
      if !overridden {
        return None;
      }
      var info := Info(pid, fd, offset, toRead, 0, globalSeq);
      NextNumber(|log|);
      globalSeq := (globalSeq + 1) % U32;
      message := Some(info);
      TallyStep(fdInfoMap, log, info);
      TallyNextKeys(fdInfoMap, log, info);
      log := log + [info];
      AddToTotals(info);
    }

    method AddToTotals(info: Info)
      modifies `fdInfoMap
      ensures fdInfoMap == Tally(old(fdInfoMap), info)
    {
      if info.pid in fdInfoMap {
        var entry := fdInfoMap[info.pid];
        fdInfoMap := fdInfoMap[info.pid := FdInfo((entry.totalBytesToRead + info.size) % U64,
                                                  (entry.batchedPreads + 1) % U64, info.fd)];
      } else if |fdInfoMap| < MAX_PIDS {
        fdInfoMap := fdInfoMap[info.pid := FdInfo(info.size % U64, 1, info.fd)];
      }
    }

    /** Reports the running total of the process and, if an override is on, asks for a flush. */
    method BatchSubmit(pid: int) returns (bytesRead: Option<nat>)
      requires Valid()
      modifies `overridden
      ensures Valid()
      ensures pid !in fdInfoMap ==> bytesRead == None && overridden == old(overridden)
      ensures pid in fdInfoMap ==> !overridden
      ensures bytesRead == if pid in fdInfoMap && old(overridden) then Some(Asked(log, pid) % U64) else None
    {
      if pid !in fdInfoMap {
        return None;
      }
      bytesRead := if overridden then Some(fdInfoMap[pid].totalBytesToRead) else None;
      overridden := false;
    }
  }

  lemma CountAppend(log: seq<Info>, info: Info, pid: int)
    ensures Count(log + [info], pid) == Count(log, pid) + if info.pid == pid then 1 else 0
    ensures Asked(log + [info], pid) == Asked(log, pid) + if info.pid == pid then info.size else 0
  {
    assert (log + [info])[..|log|] == log;
  }

  lemma PidsAppend(log: seq<Info>, info: Info)
    ensures Pids(log + [info]) == Pids(log) + {info.pid}
  {
    var all := log + [info];
    assert all[|log|] == info && forall i :: 0 <= i < |log| ==> all[i] == log[i];
  }

  /** preadRaw's update of the per-process map. */
  function Tally(m: map<int, FdInfo>, info: Info): map<int, FdInfo> {
    if info.pid in m then
      var entry := m[info.pid];
      m[info.pid := FdInfo((entry.totalBytesToRead + info.size) % U64, (entry.batchedPreads + 1) % U64, info.fd)]
    else if |m| < MAX_PIDS then m[info.pid := FdInfo(info.size % U64, 1, info.fd)]
    else m
  }

  lemma TallyKeys(m: map<int, FdInfo>, log: seq<Info>, info: Info)
    requires Tallied(m, log)
    ensures Tally(m, info).Keys <= Pids(log + [info])
    ensures |Tally(m, info)| <= MAX_PIDS
    ensures |Tally(m, info)| < MAX_PIDS ==> Pids(log + [info]) <= Tally(m, info).Keys
  {
    hide Asked, Count, Tally, Pids;
    PidsAppend(log, info);
    TallyKeySet(m, info);
  }

  lemma TallyKeySet(m: map<int, FdInfo>, info: Info)
    requires |m| <= MAX_PIDS
    ensures Tally(m, info).Keys == if info.pid in m || |m| < MAX_PIDS then m.Keys + {info.pid} else m.Keys
    ensures |m| <= |Tally(m, info)| <= MAX_PIDS
  {
    var keys := Tally(m, info).Keys;
    assert |m| == |m.Keys| && |Tally(m, info)| == |keys|;
    assert keys == m.Keys || keys == m.Keys + {info.pid};
  }

  lemma TallyNextKeys(m: map<int, FdInfo>, log: seq<Info>, info: Info)
    requires Tallied(m, log)
    ensures Tally(m, info).Keys
            == if info.pid in m.Keys || |m.Keys| < MAX_PIDS then m.Keys + {info.pid} else m.Keys
  {
    assert |m| == |m.Keys|;
    TallyKeySet(m, info);
  }

  lemma TallyValues(m: map<int, FdInfo>, log: seq<Info>, info: Info, pid: int)
    requires Tallied(m, log) && pid in Tally(m, info)
    ensures var entry := Tally(m, info)[pid];
            && entry.totalBytesToRead == Asked(log + [info], pid) % U64
            && entry.batchedPreads == Count(log + [info], pid) % U64
  {
    CountAppend(log, info, pid);
    if pid == info.pid {
      CountPositive(log, pid);
      AskedPositive(log, pid);
      WrapAdd(Asked(log, pid), info.size);
      WrapAdd(Count(log, pid), 1);
    }
  }

  lemma TallyStep(m: map<int, FdInfo>, log: seq<Info>, info: Info)
    requires Tallied(m, log)
    ensures Tallied(Tally(m, info), log + [info])
  {
    TallyKeys(m, log, info);
    forall pid | pid in Tally(m, info)
      ensures Tally(m, info)[pid].totalBytesToRead == Asked(log + [info], pid) % U64
      ensures Tally(m, info)[pid].batchedPreads == Count(log + [info], pid) % U64
    {
      TallyValues(m, log, info, pid);
    }
  }

  lemma AskedPositive(log: seq<Info>, pid: int)
    ensures pid !in Pids(log) ==> Asked(log, pid) == 0
  {
    if log != [] {
      var last := |log| - 1;
      AskedPositive(log[..last], pid);
      assert Pids(log) == Pids(log[..last]) + {log[last].pid};
    }
  }

  // ---------- The consumer ----------

  /** The submission queue that holds the reads described by `infos`, each linked to the next. */
  function Sqes(infos: seq<Info>): (r: seq<Sqe>)
    ensures |r| == |infos|
    ensures infos == [] ==> r == []
    ensures forall i :: 0 <= i < |infos| ==>
              r[i] == Sqe(Read(infos[i].fd, infos[i].dest, infos[i].size, infos[i].offset), true)
  {
    seq(|infos|, i requires 0 <= i < |infos| =>
      Sqe(Read(infos[i].fd, infos[i].dest, infos[i].size, infos[i].offset), true))
  }

  /** Each message is completed by the read it describes, in order. */
  ghost predicate Answers(infos: seq<Info>, posted: seq<Cqe>) {
    |posted| == |infos| &&
    forall i :: 0 <= i < |infos| ==>
      posted[i].op == Read(infos[i].fd, infos[i].dest, infos[i].size, infos[i].offset)
  }

  /** The first `k` completions tell what happened to the world; only the last of them may be an
      error or a short read, and if there are more it is one. */
  ghost predicate PrefixRan(infos: seq<Info>, posted: seq<Cqe>, k: nat, w: World, w': World) {
    && k <= |posted| == |infos| && w' == Replay(posted[..k], w)
    && (forall i :: 0 <= i < k - 1 ==> posted[i].res >= infos[i].size)
    && (k < |posted| ==> k > 0 && posted[k - 1].res < infos[k - 1].size)
  }

  /** A flush of linked reads: one completion each, in queue order; behind a failed or short one
      all are cancelled, and exactly the reads up to and with it ran. */
  ghost predicate LinkedFlush(infos: seq<Info>, posted: seq<Cqe>, w: World, w': World) {
    && Answers(infos, posted)
    && (forall i, j :: 0 <= i < j < |posted| && posted[i].res < infos[i].size ==> posted[j].res == -125)
    && exists k :: PrefixRan(infos, posted, k, w, w')
  }

  datatype Outcome = Done | WaitError | Blocked

  lemma LinkedChain(r: Ring, infos: seq<Info>, sched: seq<Choice>)
    requires r.flying == [] && r.cq == [] && r.sq == Sqes(infos)
    requires |Runs(Submit(r), sched).cq| >= |infos|
    ensures var end := Runs(Submit(r), sched);
            end.flying == [] && LinkedFlush(infos, PostedBy(Submit(r), sched), r.world, end.world)
  {
    hide Runs, PostedBy, Chains, Replay;
    var start, posted := Submit(r), PostedBy(Submit(r), sched);
    var ops, link := Queued(r.sq), Links(r.sq);
    SubmitCounts(r);
    assert [] + Chains(ops, link) == Chains(ops, link);
    DrainedIsSettled(start, sched);
    LinkedOrder(ops, link, Ops(posted));
    assert Answers(infos, posted) by {
      assert forall i :: 0 <= i < |posted| ==> posted[i].op == Ops(posted)[i] == r.sq[i].op;
    }
    CutOffHolds(start, sched);
    ExecutedPrefix(posted, r.world);
    forall i, j | 0 <= i < j < |posted| && posted[i].res < infos[i].size ensures posted[j].res == -125 {
      OneChainCutOff(start, sched, i);
    }
    assert PrefixRan(infos, posted, Executed(posted), r.world, Runs(start, sched).world);
  }

  lemma NothingFlushed(w: World)
    ensures LinkedFlush([], [], w, w)
  {
    assert PrefixRan([], [], 0, w, w);
  }

  /** Wait `count` times, unless a wait fails or can never return. */
  method WaitLoop(start: Ring, count: nat, errorAt: Option<nat>)
    returns (ring: Ring, i: nat, outcome: Outcome, ghost sched: seq<Choice>)
    requires Wf(start) && Outstanding(start) <= count
    ensures i <= |Runs(start, sched).cq| && ring == Runs(start, sched).(cq := Runs(start, sched).cq[i..])
    ensures Wf(ring) && Outstanding(ring) == Outstanding(start) - i
    ensures ring.sq == start.sq && ring.depth == start.depth
    ensures outcome == WaitError <==>
              errorAt.Some? && errorAt.value < count && errorAt.value <= Outstanding(start)
    ensures outcome == Blocked <==> outcome != WaitError && Outstanding(start) < count
    ensures i == match outcome
                 case Done => count
                 case WaitError => errorAt.value
                 case Blocked => Outstanding(start)
  {
    ring, i, sched, outcome := start, 0, [], Done;
    while i < count
      invariant i <= count && i <= |Runs(start, sched).cq|
      invariant ring == Runs(start, sched).(cq := Runs(start, sched).cq[i..])
      invariant Wf(ring) && Outstanding(ring) == Outstanding(start) - i
      invariant ring.sq == start.sq && ring.depth == start.depth
      invariant outcome == Done && !(errorAt.Some? && errorAt.value < i)
    {
      if errorAt == Some(i) {
        outcome := WaitError;
        break;
      }
      if Outstanding(ring) == 0 {
        outcome := Blocked;
        break;
      }
      ghost var reached, more := Runs(start, sched), [];
      var c;
      RunsConserve(start, sched);
      ring, c, more := WaitCqe(ring);
      RunsDrop(reached, i, more);
      RunsAppend(start, sched, more);
      RunsConserve(reached, more);
      RunsCount(Runs(reached, more), i + 1);
      sched := sched + more;
      i := i + 1;
    }
  }

  class Consumer {
    var ring: Ring
    var batchCount: nat
    ghost var submitted: seq<Info>  // reads ever handed to the kernel
    ghost var queued: seq<Info>     // reads waiting in the submission queue
    ghost var surplus: nat          // completions taken by flushes that failed
    ghost var failed: bool          // some wait has failed

    ghost predicate Valid()
      reads this
    {
      && Wf(ring) && ring.depth == DEPTH
      && ring.sq == Sqes(queued) && |queued| <= DEPTH
      && batchCount == |queued| + Outstanding(ring) + surplus
      && (!failed ==> surplus == 0 && ring.flying == [] && ring.cq == [])
    }

    constructor (w: World)
      ensures Valid() && !failed && submitted == [] && queued == [] && ring.world == w
    {
      ring, batchCount := NewRing(DEPTH, w), 0;
      submitted, queued, surplus, failed := [], [], 0, false;
    }

    /** A read is queued and counted, or dropped when the submission queue is full. */
    method ProcessPrepare(info: Info) returns (taken: bool)
      requires Valid()
      modifies `ring, `batchCount, `queued
      ensures Valid()
      ensures taken == (|old(queued)| < DEPTH)
      ensures queued == if taken then old(queued) + [info] else old(queued)
      ensures taken ==> ring.sq == old(ring.sq) + [Sqe(Read(info.fd, info.dest, info.size, info.offset), true)]
      ensures !taken ==> ring == old(ring)
      ensures ring == old(ring).(sq := ring.sq) && Outstanding(ring) == Outstanding(old(ring))
    {
      if !HasRoom(ring) {
        return false;
      }
      ring := Enqueue(ring, Read(info.fd, info.dest, info.size, info.offset));
      ring := SetLink(ring);
      queued := queued + [info];
      batchCount := batchCount + 1;
      assert ring.sq == Sqes(queued);
      return true;
    }

    /** Flush.  `errorAt` names the wait that fails, if one does.  `Blocked` stands for a wait
        that can never return, since nothing is outstanding. */
    method ProcessSubmit(errorAt: Option<nat>) returns (outcome: Outcome, ghost posted: seq<Cqe>)
      requires Valid()
      modifies this
      ensures Valid()
      ensures queued == [] && submitted == old(submitted + queued)
      ensures old(batchCount) == 0 ==> outcome == Done && ring == old(ring)
      ensures var waits := old(batchCount) - old(surplus);
              old(batchCount) > 0 ==>
                && (outcome == WaitError <==> errorAt.Some? && errorAt.value < old(batchCount) && errorAt.value <= waits)
                && (outcome == Blocked <==> outcome != WaitError && old(surplus) > 0)
                && surplus == (match outcome
                                case Done => 0
                                case WaitError => old(surplus) + errorAt.value
                                case Blocked => old(surplus) + waits)
                && batchCount == if outcome == Done then 0 else old(batchCount)
      ensures outcome == Done ==> batchCount == 0 && surplus == 0 && Idle(ring) && failed == old(failed)
      ensures outcome == Done && !old(failed) ==>
                LinkedFlush(old(queued), posted, old(ring.world), ring.world)
      ensures outcome != Done ==> failed
    {
      posted := [];
      if batchCount == 0 {
        FlattenNonEmpty(ring.flying);
        NothingFlushed(ring.world);
        return Done, [];
      }
      ghost var first, sched := ring, [];
      SubmitCounts(ring);
      var i;
      ring, i, outcome, sched := WaitLoop(Submit(ring), batchCount, errorAt);
      submitted, queued := submitted + queued, [];
      if outcome != Done {
        surplus, failed := surplus + i, true;
        return;
      }
      FlattenNonEmpty(ring.flying);
      batchCount := 0;
      if !failed {
        LinkedChain(first, old(queued), sched);
        posted := PostedBy(Submit(first), sched);
      }
    }
  }

  // ---------- Both processes ----------

  /** One step of either process.  `lost`: the ring buffer had no room for the message. */
  datatype Action =
    | TypeCheck(matches: bool)
    | Pread(pid: int, fd: int, offset: int, toRead: nat, lost: bool)
    | AskFlush(pid: int, lost: bool)
    | Consume(errorAt: Option<nat>)
    | NextPoll

  datatype Poll = OnPrepare | OnSubmit

  /** What the consumer has seen: a message, named by its place in the log, or a flush request,
      with the wait that fails then, if one does. */
  datatype Seen = Message(at: nat) | FlushRequest(errorAt: Option<nat>)

  ghost function Messages(history: seq<Seen>): seq<nat> {
    if history == [] then []
    else
      var n := |history| - 1;
      Messages(history[..n]) + if history[n].Message? then [history[n].at] else []
  }

  /** Requests waiting in the submission queue: a message adds one while there is room, a flush
      empties it. */
  ghost function Held(history: seq<Seen>): (k: nat)
    ensures k <= DEPTH
  {
    if history == [] then 0
    else
      var n := |history| - 1;
      if history[n].FlushRequest? then 0 else Min(Held(history[..n]) + 1, DEPTH)
  }

  /** The messages that met a submission queue with room. */
  ghost function Admitted(history: seq<Seen>): seq<nat> {
    if history == [] then []
    else
      var n := |history| - 1;
      Admitted(history[..n]) + if history[n].Message? && Held(history[..n]) < DEPTH then [history[n].at] else []
  }

  /** Those of them that a flush has handed to the kernel. */
  ghost function Handed(history: seq<Seen>): seq<nat> {
    if history == [] then []
    else
      var n := |history| - 1;
      if history[n].FlushRequest? then Admitted(history[..n]) else Handed(history[..n])
  }

  /** What failed waits leave behind: completions still open, completions counted though they were
      taken, and whether the consumer waits for ever. */
  datatype Account = Account(open: nat, surplus: nat, stuck: bool)

  predicate WaitFails(errorAt: Option<nat>, avail: nat, surplus: nat) {
    errorAt.Some? && errorAt.value <= avail && errorAt.value < avail + surplus
  }

  /** A failing wait leaves what it had taken in the count; the next flush that does not fail first
      then waits for that much more than there is. */
  ghost function Standing(history: seq<Seen>): Account {
    if history == [] then Account(0, 0, false)
    else
      var n := |history| - 1;
      var before, avail := Standing(history[..n]), Held(history[..n]) + Standing(history[..n]).open;
      match history[n]
      case Message(_) => before
      case FlushRequest(errorAt) =>
        if WaitFails(errorAt, avail, before.surplus) then
          Account(avail - errorAt.value, before.surplus + errorAt.value, false)
        else if before.surplus > 0 then Account(0, before.surplus + avail, true)
        else Account(0, 0, false)
  }

  lemma SeenMessage(history: seq<Seen>, at: nat)
    ensures var next := history + [Message(at)];
            && Messages(next) == Messages(history) + [at]
            && Held(next) == Min(Held(history) + 1, DEPTH)
            && Admitted(next) == Admitted(history) + (if Held(history) < DEPTH then [at] else [])
            && Handed(next) == Handed(history) && Standing(next) == Standing(history)
  {
    assert (history + [Message(at)])[..|history|] == history;
  }

  lemma SeenFlush(history: seq<Seen>, errorAt: Option<nat>)
    ensures var next := history + [FlushRequest(errorAt)];
            var before := Standing(history);
            var avail := Held(history) + before.open;
            && Messages(next) == Messages(history) && Held(next) == 0
            && Admitted(next) == Handed(next) == Admitted(history)
            && Standing(next) == (if WaitFails(errorAt, avail, before.surplus) then
                                    Account(avail - errorAt.value, before.surplus + errorAt.value, false)
                                  else if before.surplus > 0 then Account(0, before.surplus + avail, true)
                                  else Account(0, 0, false))
  {
    assert (history + [FlushRequest(errorAt)])[..|history|] == history;
    assert Messages(history) + [] == Messages(history);
  }

  /** What is admitted of rising messages rises, so nothing is handed over twice. */
  lemma {:induction false} AdmittedRise(history: seq<Seen>, limit: nat)
    requires Rising(Messages(history)) && Below(Messages(history), limit)
    ensures Rising(Admitted(history)) && Below(Admitted(history), limit)
  {
    if history != [] {
      var n := |history| - 1;
      var before := Messages(history[..n]);
      if history[n].Message? {
        RisingPrefix(before, [history[n].at], limit);
        assert Messages(history)[|before|] == history[n].at;
        assert forall i :: 0 <= i < |before| ==> before[i] == Messages(history)[i];
        AdmittedRise(history[..n], history[n].at);
      } else {
        assert before + [] == before;
        AdmittedRise(history[..n], limit);
      }
    }
  }

  /** Whether the override is on, and the processes in the map, behind a step. */
  function ProbeState(a: Action, on: bool, known: set<int>): (bool, set<int>) {
    match a
    case TypeCheck(matches) => (matches, known)
    case Pread(pid, _, _, _, _) => (on, if on && (pid in known || |known| < MAX_PIDS) then known + {pid} else known)
    case AskFlush(pid, _) => (on && pid !in known, known)
    case _ => (on, known)
  }

  /** The preads of a schedule that are overridden. */
  function Overridden(schedule: seq<Action>, on: bool, known: set<int>): seq<Action> {
    if schedule == [] then []
    else
      var (on', known') := ProbeState(schedule[0], on, known);
      (if schedule[0].Pread? && on then [schedule[0]] else []) + Overridden(schedule[1..], on', known')
  }

  lemma OverriddenStep(schedule: seq<Action>, i: nat, on: bool, known: set<int>)
    requires i < |schedule|
    ensures var (on', known') := ProbeState(schedule[i], on, known);
            Overridden(schedule[i..], on, known)
            == (if schedule[i].Pread? && on then [schedule[i]] else []) + Overridden(schedule[i + 1..], on', known')
  {
    assert schedule[i..][0] == schedule[i] && schedule[i..][1..] == schedule[i + 1..];
  }

  lemma NoneOverridden(on: bool, known: set<int>)
    ensures Overridden([], on, known) == []
  {
  }

  /** The log describes the calls: `dest` holds the offset argument, and the position is 0. */
  ghost predicate Describes(log: seq<Info>, calls: seq<Action>) {
    |log| == |calls| &&
    forall i :: 0 <= i < |log| ==>
      && calls[i].Pread?
      && log[i] == Info(calls[i].pid, calls[i].fd, calls[i].offset, calls[i].toRead, 0, i % U32)
  }

  lemma AnswersMore(before: seq<Info>, done: seq<Cqe>, infos: seq<Info>, posted: seq<Cqe>)
    requires Answers(before, done) && Answers(infos, posted)
    ensures Answers(before + infos, done + posted)
  {
  }

  /** The completions so far answer the first of the submitted messages. */
  ghost predicate AnswersSome(infos: seq<Info>, posted: seq<Cqe>) {
    |posted| <= |infos| && Answers(infos[..|posted|], posted)
  }

  lemma AnswersSomeStill(infos: seq<Info>, more: seq<Info>, posted: seq<Cqe>)
    requires AnswersSome(infos, posted)
    ensures AnswersSome(infos + more, posted)
  {
    assert (infos + more)[..|posted|] == infos[..|posted|];
  }

  lemma AnswersAll(infos: seq<Info>, more: seq<Info>, posted: seq<Cqe>, morePosted: seq<Cqe>)
    requires AnswersSome(infos, posted) && |posted| == |infos| && Answers(more, morePosted)
    ensures AnswersSome(infos + more, posted + morePosted) && |posted + morePosted| == |infos + more|
  {
    assert infos[..|posted|] == infos;
    AnswersMore(infos, posted, more, morePosted);
    assert (infos + more)[..|posted + morePosted|] == infos + more;
  }

  class Protocol {
    const probes: Probes
    const consumer: Consumer
    var prepare: seq<Info>  // the prepare ring buffer
    var submit: seq<int>    // the submit ring buffer
    var poll: Poll
    var polled: bool        // the current poll has handled a message
    var stuck: bool         // the consumer waits for a completion that cannot come
    ghost var ringed: seq<nat>     // log positions of the messages in the prepare ring buffer
    ghost var history: seq<Seen>   // what the consumer has seen
    ghost var calls: seq<Action>   // the overridden preads, in call order
    ghost var completed: seq<Cqe>  // completions of the flushes before the first failed wait

    /** Messages keep their order, none is seen twice, and the requests ever queued are the
        admitted messages. */
    ghost predicate Valid()
      reads this, probes, consumer
    {
      && probes.Valid() && consumer.Valid()
      && Rising(Messages(history) + ringed) && Below(Messages(history) + ringed, |probes.log|)
      && Below(ringed, |probes.log|) && prepare == Pick(probes.log, ringed)
      && Below(Admitted(history), |probes.log|) && Below(Handed(history), |probes.log|)
      && |consumer.queued| == Held(history)
      && consumer.submitted == Pick(probes.log, Handed(history))
      && consumer.submitted + consumer.queued == Pick(probes.log, Admitted(history))
      && Standing(history) == Account(Outstanding(consumer.ring), consumer.surplus, stuck)
      && (stuck ==> consumer.failed)
      && Describes(probes.log, calls)
      && AnswersSome(consumer.submitted, completed)
      && (!consumer.failed ==> |completed| == |consumer.submitted|)
    }

    constructor (w: World)
      ensures Valid() && !consumer.failed && fresh(probes) && fresh(consumer)
      ensures probes.log == [] && history == [] && prepare == [] && submit == [] && completed == []
    {
      probes := new Probes();
      consumer := new Consumer(w);
      prepare, submit, poll, polled, stuck := [], [], OnPrepare, false, false;
      ringed, history, calls, completed := [], [], [], [];
    }

    method ProbePread(pid: int, fd: int, offset: int, toRead: nat, lost: bool)
      requires Valid()
      modifies `prepare, `ringed, `calls, probes
      ensures calls == old(calls) + if probes.overridden then [Pread(pid, fd, offset, toRead, lost)] else []
      ensures (probes.overridden, probes.fdInfoMap.Keys)
              == ProbeState(Pread(pid, fd, offset, toRead, lost), old(probes.overridden), old(probes.fdInfoMap.Keys))
      ensures Valid() && probes.overridden == old(probes.overridden)
      ensures var n := |old(probes.log)|;
              var message := Info(pid, fd, offset, toRead, 0, n % U32);
              && probes.log == old(probes.log) + (if probes.overridden then [message] else [])
              && prepare == old(prepare) + (if probes.overridden && !lost then [message] else [])
              && ringed == old(ringed) + (if probes.overridden && !lost then [n] else [])
    {
      hide Held, Admitted, Handed, Messages, Standing, Tallied, AnswersSome, Sqes;
      ghost var log := probes.log;
      assert calls + [] == calls;
      var message := probes.PreadRaw(pid, fd, offset, toRead);
      if message.Some? {
        calls := calls + [Pread(pid, fd, offset, toRead, lost)];
        PickLonger(log, [message.value], ringed);
        PickLonger(log, [message.value], Handed(history));
        PickLonger(log, [message.value], Admitted(history));
        if !lost {
          PickAppend(probes.log, ringed, |log|);
          assert Messages(history) + (ringed + [|log|]) == (Messages(history) + ringed) + [|log|];
          prepare := prepare + [message.value];
          ringed := ringed + [|log|];
        }
      }
    }

    method TakePrepare()
      requires Valid() && prepare != []
      modifies `prepare, `ringed, `history, consumer`ring, consumer`batchCount, consumer`queued
      ensures Valid()
      ensures history == old(history) + [Message(old(ringed)[0])]
      ensures prepare == old(prepare)[1..] && ringed == old(ringed)[1..]
      ensures consumer.ring.world == old(consumer.ring.world)
    {
      hide Held, Admitted, Handed, Messages, Standing, Tallied, Wf, Outstanding, Describes, AnswersSome, Sqes, SeqNumsRise, Rising, Below, Pick;
      ghost var at := ringed[0];
      PickRest(probes.log, ringed);
      var room := consumer.ProcessPrepare(prepare[0]);
      SeenMessage(history, at);
      if room {
        PickAppend(probes.log, Admitted(history), at);
      }
      assert Admitted(history) + [] == Admitted(history);
      assert (Messages(history) + [at]) + ringed[1..] == Messages(history) + ringed;
      prepare := prepare[1..];
      ringed, history := ringed[1..], history + [Message(at)];
    }

    method TakeSubmit(errorAt: Option<nat>) returns (outcome: Outcome, ghost posted: seq<Cqe>)
      requires Valid() && submit != [] && !stuck
      modifies `submit, `history, `stuck, `completed, consumer
      ensures Valid() && stuck == (outcome == Blocked)
      ensures history == old(history) + [FlushRequest(errorAt)] && submit == old(submit)[1..]
      ensures errorAt == None && !old(consumer.failed) ==> outcome == Done && !consumer.failed
      ensures outcome == Done && !old(consumer.failed) ==>
                LinkedFlush(old(consumer.queued), posted, old(consumer.ring.world), consumer.ring.world)
    {
      hide Held, Admitted, Handed, Messages, Standing, Tallied, Wf, Outstanding, LinkedFlush;
      SeenFlush(history, errorAt);
      ghost var failed, submitted, queued := consumer.failed, consumer.submitted, consumer.queued;
      AnswersSomeStill(submitted, queued, completed);
      outcome, posted := consumer.ProcessSubmit(errorAt);
      submit := submit[1..];
      history := history + [FlushRequest(errorAt)];
      stuck := outcome == Blocked;
      if outcome == Done && !failed {
        AnswersAll(submitted, queued, completed, posted);
        completed := completed + posted;
      }
    }

    method ProbeBatchSubmit(pid: int, lost: bool)
      requires Valid()
      modifies `submit, probes`overridden
      ensures Valid()
      ensures (probes.overridden, probes.fdInfoMap.Keys)
              == ProbeState(AskFlush(pid, lost), old(probes.overridden), old(probes.fdInfoMap.Keys))
      ensures var known := pid in probes.fdInfoMap;
              && probes.overridden == (old(probes.overridden) && !known)
              && submit == old(submit) + if known && old(probes.overridden) && !lost then [pid] else []
    {
      hide Held, Admitted, Handed, Messages, Standing, Tallied;
      var reported := probes.BatchSubmit(pid);
      if reported.Some? && !lost {
        submit := submit + [pid];
      }
    }

    /** What the consumer would see next: the head of the ring buffer it polls. */
    ghost function Due(errorAt: Option<nat>): seq<Seen>
      requires Valid()
      reads this, probes, consumer
    {
      if stuck then []
      else if poll == OnPrepare then (if prepare == [] then [] else [Message(ringed[0])])
      else (if submit == [] then [] else [FlushRequest(errorAt)])
    }

    /** One step of the consumer: the next message of the ring buffer it polls, if there is one. */
    method ConsumeOne(errorAt: Option<nat>)
      requires Valid()
      modifies `prepare, `submit, `polled, `stuck, `ringed, `history, `completed, consumer
      ensures Valid()
      ensures errorAt == None && !old(consumer.failed) ==> !consumer.failed
      ensures history == old(history + Due(errorAt))
      ensures prepare == if old(Due(errorAt)) != [] && poll == OnPrepare then old(prepare)[1..] else old(prepare)
      ensures submit == if old(Due(errorAt)) != [] && poll == OnSubmit then old(submit)[1..] else old(submit)
      ensures polled == (old(polled) || old(Due(errorAt)) != [])
      ensures old(Due(errorAt)) == [] ==> unchanged(consumer) && unchanged(this)
    {
      hide Held, Admitted, Handed, Messages, Standing, Tallied, Wf, Outstanding, LinkedFlush;
      assert history + [] == history && |prepare| == |ringed|;
      if stuck {
      } else if poll == OnPrepare && prepare != [] {
        TakePrepare();
        polled := true;
      } else if poll == OnSubmit && submit != [] {
        var outcome, posted := TakeSubmit(errorAt);
        polled := true;
      }
    }

    /** Any step may come at any time; the consumer alone keeps to its poll loop, which leaves
        a ring buffer only after it has handled a message. */
    method Step(a: Action)
      requires Valid()
      modifies this, probes, consumer
      ensures Valid()
      ensures var n := |old(probes.log)|;
              probes.log == old(probes.log) +
                if a.Pread? && old(probes.overridden) then [Info(a.pid, a.fd, a.offset, a.toRead, 0, n % U32)] else []
      ensures history == old(history) + if a.Consume? then old(Due(a.errorAt)) else []
      ensures a.Pread? && old(probes.overridden) && !a.lost ==> ringed == old(ringed) + [|old(probes.log)|]
      ensures calls == old(calls) + if a.Pread? && old(probes.overridden) then [a] else []
      ensures (probes.overridden, probes.fdInfoMap.Keys)
              == ProbeState(a, old(probes.overridden), old(probes.fdInfoMap.Keys))
      ensures poll != old(poll) <==> a.NextPoll? && !old(stuck) && old(polled)
      ensures polled == ((old(polled) && poll == old(poll)) || (a.Consume? && old(Due(a.errorAt)) != []))
      ensures !(a.Consume? && a.errorAt.Some?) && !old(consumer.failed) ==> !consumer.failed
    {
      hide Held, Admitted, Handed, Messages, Standing, Tallied, Wf, Outstanding;
      assert probes.log + [] == probes.log && history + [] == history && calls + [] == calls;
      match a {
        case TypeCheck(matches) =>
          var _ := probes.ReadS(matches);
        case Pread(pid, fd, offset, toRead, lost) =>
          ProbePread(pid, fd, offset, toRead, lost);
        case AskFlush(pid, lost) =>
          ProbeBatchSubmit(pid, lost);
        case Consume(errorAt) =>
          ConsumeOne(errorAt);
        case NextPoll =>
          if !stuck && polled {
            poll := if poll == OnPrepare then OnSubmit else OnPrepare;
            polled := false;
          }
      }
    }

    /** Under every interleaving the reads ever given to the kernel are, in order and once each,
        the messages that met a submission queue with room.  The consumer waits for ever exactly
        if a flush it has seen met completions counted though taken, and did not fail first;
        without a failing wait it never does, and the count is exact. */
    method Run(schedule: seq<Action>)
      requires Valid()
      modifies this, probes, consumer
      ensures Valid()
      ensures Rising(Admitted(history))
      ensures consumer.submitted + consumer.queued == Pick(probes.log, Admitted(history))
      ensures |consumer.queued| == Held(history) <= 1024
      ensures |probes.log| <= U32 ==> SeqNumsRise(consumer.submitted)
      ensures !old(consumer.failed) && Unfailing(schedule) ==>
                !stuck && consumer.batchCount == |consumer.queued| == Held(history)
      ensures stuck == Standing(history).stuck
      ensures calls == old(calls) + Overridden(schedule, old(probes.overridden), old(probes.fdInfoMap.Keys))
      ensures |completed| <= |Handed(history)| && (!consumer.failed ==> |completed| == |Handed(history)|)
      ensures Below(Handed(history), |calls|)
      ensures forall k :: 0 <= k < |completed| ==>
                var call := calls[Handed(history)[k]];
                call.Pread? && completed[k].op == Read(call.fd, call.offset, call.toRead, 0)
    {
      hide Held, Admitted, Handed, Messages, Standing, Tallied, Wf, Rising, Overridden, ProbeState;
      ghost var on, known := probes.overridden, probes.fdInfoMap.Keys;
      assert schedule[0..] == schedule;
      for i := 0 to |schedule|
        invariant Valid()
        invariant calls + Overridden(schedule[i..], probes.overridden, probes.fdInfoMap.Keys)
                  == old(calls) + Overridden(schedule, on, known)
        invariant !old(consumer.failed) && Unfailing(schedule) ==> !consumer.failed
      {
        OverriddenStep(schedule, i, probes.overridden, probes.fdInfoMap.Keys);
        Step(schedule[i]);
      }
      NoneOverridden(probes.overridden, probes.fdInfoMap.Keys);
      assert schedule[|schedule|..] == [] && calls + [] == calls;
      CompletedCalls(probes.log, calls, Handed(history), consumer.submitted, completed);
      RisingPrefix(Messages(history), ringed, |probes.log|);
      AdmittedRise(history, |probes.log|);
      if |probes.log| <= U32 {
        PickRises(probes.log, Admitted(history), consumer.submitted);
      }
    }
  }

  lemma CompletedCalls(log: seq<Info>, calls: seq<Action>, at: seq<nat>, submitted: seq<Info>, completed: seq<Cqe>)
    requires Describes(log, calls) && Below(at, |log|) && submitted == Pick(log, at) && AnswersSome(submitted, completed)
    ensures forall k :: 0 <= k < |completed| ==>
              var call := calls[at[k]];
              call.Pread? && completed[k].op == Read(call.fd, call.offset, call.toRead, 0)
  {
    forall k | 0 <= k < |completed|
      ensures var call := calls[at[k]];
              call.Pread? && completed[k].op == Read(call.fd, call.offset, call.toRead, 0)
    {
      assert submitted[..|completed|][k] == submitted[k] == log[at[k]];
    }
  }

  ghost predicate Unfailing(schedule: seq<Action>) {
    forall i :: 0 <= i < |schedule| && schedule[i].Consume? ==> schedule[i].errorAt == None
  }

  lemma PickRises(log: seq<Info>, at: seq<nat>, picked: seq<Info>)
    requires |log| <= U32 && forall i :: 0 <= i < |log| ==> log[i].seqNum == i % U32
    requires Rising(at) && Below(at, |log|) && picked <= Pick(log, at)
    ensures SeqNumsRise(picked)
  {
    forall i | 0 <= i < |picked| ensures picked[i].seqNum == at[i] {
      assert picked[i] == Pick(log, at)[i];
    }
  }
}
