/** Skipping waits for data the kernel has already written back (bpf/rocksdb.bpf.c). */
module WritebackCredits {
  import opened Basics

  const MAP_MAX := 10000

  datatype CheckData = CheckData(pid: int, fd: int, iIno: nat)

  /** `i_ino` is 64 bits wide; the map is keyed by the low 32. */
  datatype Event =
    | Submit(pid: int, fd: int, iIno: nat, found: bool)
    | Writeback(iIno: nat, present: bool)
    | Wait(syncCount: nat, present: bool)

  function Key(iIno: nat): nat {
    iIno % U32
  }

  /** Skipped waits never exceed writebacks, and the counter is what is left of them. */
  ghost predicate Balanced(count: nat, writebacks: nat, skipped: nat) {
    skipped <= writebacks && count == (writebacks - skipped) % U64
  }

  lemma BalancedRaise(count: nat, writebacks: nat, skipped: nat)
    requires Balanced(count, writebacks, skipped)
    ensures Balanced((count + 1) % U64, writebacks + 1, skipped)
  {
    var d := writebacks - skipped;
    assert (d % U64 + 1) % U64 == (d + 1) % U64;
  }

  /** Spending no more than the counter shows neither overdraws nor wraps. */
  lemma BalancedSpend(count: nat, writebacks: nat, skipped: nat, n: nat)
    requires Balanced(count, writebacks, skipped) && n <= count
    ensures Balanced(count - n, writebacks, skipped + n)
  {
    var d := writebacks - skipped;
    assert d == U64 * (d / U64) + count;
    assert d - n == U64 * (d / U64) + (count - n);
  }

  /** A submit that enters the map: its file was found, and its inode is there already in the low 32
      bits, or there is room. */
  ghost predicate Enters(events: seq<Event>, j: nat)
    requires j < |events|
    decreases j, 1
  {
    && events[j].Submit? && events[j].found
    && (events[j].iIno % 0x1_0000_0000 in Entered(events, j) || |Entered(events, j)| < 10000)
  }

  /** The low 32 bits of the inodes entered by the first `n` events. */
  ghost function Entered(events: seq<Event>, n: nat): set<nat>
    requires n <= |events|
    decreases n, 0
  {
    set j: nat | j < n && Enters(events, j) :: events[j].iIno % 0x1_0000_0000
  }

  /** A writeback that counts: an inode equal to it modulo 2^32 was entered before. */
  ghost predicate Counts(events: seq<Event>, i: nat)
    requires i < |events|
  {
    && events[i].Writeback? && events[i].present
    && exists j: nat :: j < i && Enters(events, j) && events[j].iIno % 0x1_0000_0000 == events[i].iIno % 0x1_0000_0000
  }

  /** How many of the first `n` events count. */
  ghost function Credits(events: seq<Event>, n: nat): nat
    requires n <= |events|
  {
    if n == 0 then 0 else Credits(events, n - 1) + if Counts(events, n - 1) then 1 else 0
  }

  lemma EnteredNext(events: seq<Event>, i: nat)
    requires i < |events|
    ensures Entered(events, i + 1)
            == Entered(events, i) + if Enters(events, i) then {events[i].iIno % 0x1_0000_0000} else {}
    ensures events[i].Writeback? ==>
              (Counts(events, i) <==> events[i].present && events[i].iIno % 0x1_0000_0000 in Entered(events, i))
  {
  }

  /** The sync counts of the waits that were skipped; `answers` says which. */
  function SkippedSyncs(events: seq<Event>, answers: seq<bool>): nat
    requires |events| == |answers|
  {
    if events == [] then 0
    else
      (if events[0].Wait? && answers[0] then events[0].syncCount else 0) + SkippedSyncs(events[1..], answers[1..])
  }

  class Hooks {
    var inodeMap: map<nat, CheckData>
    var writebackCount: nat
    ghost var writebacks: nat  // writebacks seen on tracked inodes
    ghost var skipped: nat     // sync counts of skipped waits

    ghost predicate Valid()
      reads this
    {
      Balanced(writebackCount, writebacks, skipped)
    }

    constructor ()
      ensures Valid() && inodeMap == map[] && writebacks == 0 && skipped == 0
    {
      inodeMap, writebackCount, writebacks, skipped := map[], 0, 0, 0;
    }

    /** The wait is skipped exactly when the counter is positive and covers the sync count. */
    method EnterWaitForQueue(present: bool, syncCount: nat) returns (skip: bool)
      requires Valid()
      modifies `writebackCount, `skipped
      ensures Valid()
      ensures skip <==> present && old(writebackCount) > 0 && syncCount <= old(writebackCount)
      ensures skipped == old(skipped) + if skip then syncCount else 0
    {
      if !present {
        return false;
      }
      if writebackCount <= 0 || writebackCount < syncCount {
        return false;
      }
      BalancedSpend(writebackCount, writebacks, skipped, syncCount);
      writebackCount := writebackCount - syncCount;
      skipped := skipped + syncCount;
      return true;
    }

    method SubmitFd(pid: int, fd: int, iIno: nat, found: bool)
      requires Valid()
      modifies `inodeMap
      ensures Valid()
      ensures var low := iIno % 0x1_0000_0000;
              inodeMap.Keys == if found && (low in old(inodeMap.Keys) || |old(inodeMap.Keys)| < 10000)
                               then old(inodeMap.Keys) + {low} else old(inodeMap.Keys)
    {
      if !found {
        return;
      }
      assert |inodeMap| == |inodeMap.Keys|;
      if Key(iIno) in inodeMap || |inodeMap| < MAP_MAX {
        inodeMap := inodeMap[Key(iIno) := CheckData(pid, fd, iIno % U32)];
      }
    }

    method WritebackSingleInode(present: bool, iIno: nat)
      requires Valid()
      modifies `writebackCount, `writebacks
      ensures Valid()
      ensures writebacks == old(writebacks) + if present && iIno % 0x1_0000_0000 in inodeMap then 1 else 0
    {
      if !present {
        return;
      }
      if Key(iIno) !in inodeMap {
        return;
      }
      BalancedRaise(writebackCount, writebacks, skipped);
      writebackCount := (writebackCount + 1) % U64;
      writebacks := writebacks + 1;
    }

    method Handle(e: Event) returns (answer: bool)
      requires Valid()
      modifies this
      ensures Valid()
      ensures answer <==> e.Wait? && e.present && old(writebackCount) > 0 && e.syncCount <= old(writebackCount)
      ensures skipped == old(skipped) + if answer then e.syncCount else 0
      ensures writebacks
              == old(writebacks) + if e.Writeback? && e.present && e.iIno % 0x1_0000_0000 in old(inodeMap.Keys) then 1 else 0
      ensures inodeMap.Keys
              == if e.Submit? && e.found && (e.iIno % 0x1_0000_0000 in old(inodeMap.Keys) || |old(inodeMap.Keys)| < 10000)
                 then old(inodeMap.Keys) + {e.iIno % 0x1_0000_0000} else old(inodeMap.Keys)
    {
      answer := false;
      match e {
        case Submit(pid, fd, ino, found) => SubmitFd(pid, fd, ino, found);
        case Writeback(ino, present) => WritebackSingleInode(present, ino);
        case Wait(n, present) => answer := EnterWaitForQueue(present, n);
      }
    }

    /** Over any run, the sync counts of all skipped waits sum to at most the writebacks that count,
        the counter is exactly the difference, and it decides every wait. */
    method Run(events: seq<Event>) returns (answers: seq<bool>)
      requires Valid() && inodeMap == map[] && writebacks == 0 && skipped == 0
      modifies this
      ensures |answers| == |events|
      ensures SkippedSyncs(events, answers) <= Credits(events, |events|)
      ensures writebackCount == (Credits(events, |events|) - SkippedSyncs(events, answers)) % U64
      ensures forall i :: 0 <= i < |events| ==> Decided(events, answers, i)
    {
      hide SkippedSyncs, Credits, Entered, Decided, Tallied;
      answers := [];
      NothingTallied(events);
      assert inodeMap.Keys == {};
      for i := 0 to |events|
        invariant Valid() && |answers| == i && Tallied(events, answers, inodeMap.Keys, writebacks, skipped)
      {
        ghost var keys, count := inodeMap.Keys, writebackCount;
        ghost var before, spent := writebacks, skipped;
        var answer := Handle(events[i]);
        TalliedNext(events, answers, keys, before, spent, count, answer);
        answers := answers + [answer];
      }
      TalliedEnd(events, answers, inodeMap.Keys, writebacks, skipped);
    }
  }

  /** What the hooks hold after `|answers|` events. */
  ghost predicate Tallied(events: seq<Event>, answers: seq<bool>, keys: set<nat>, writebacks: nat, skipped: nat) {
    && |answers| <= |events|
    && writebacks == Credits(events, |answers|) && keys == Entered(events, |answers|)
    && skipped == SkippedSyncs(events[..|answers|], answers)
    && forall i :: 0 <= i < |answers| ==> Decided(events, answers, i)
  }

  lemma NothingTallied(events: seq<Event>)
    ensures Tallied(events, [], {}, 0, 0)
  {
    assert events[..0] == [];
  }

  lemma TalliedEnd(events: seq<Event>, answers: seq<bool>, keys: set<nat>, writebacks: nat, skipped: nat)
    requires Tallied(events, answers, keys, writebacks, skipped) && |answers| == |events|
    ensures writebacks == Credits(events, |events|) && skipped == SkippedSyncs(events, answers)
    ensures forall i :: 0 <= i < |events| ==> Decided(events, answers, i)
  {
    assert events[..|events|] == events;
  }

  lemma TalliedNext(events: seq<Event>, answers: seq<bool>, keys: set<nat>, writebacks: nat, skipped: nat, count: nat,
                    answer: bool)
    requires Tallied(events, answers, keys, writebacks, skipped) && |answers| < |events|
    requires Balanced(count, writebacks, skipped)
    requires var e := events[|answers|]; answer <==> e.Wait? && e.present && count > 0 && e.syncCount <= count
    ensures var e, low := events[|answers|], if events[|answers|].Wait? then 0 else events[|answers|].iIno % 0x1_0000_0000;
            Tallied(events, answers + [answer],
                    if e.Submit? && e.found && (low in keys || |keys| < 10000) then keys + {low} else keys,
                    writebacks + (if e.Writeback? && e.present && low in keys then 1 else 0),
                    skipped + (if answer then e.syncCount else 0))
  {
    hide Entered, Enters, Counts, SkippedSyncs;
    var i := |answers|;
    EnteredNext(events, i);
    EntersIff(events, i);
    CountsOnlyWritebacks(events, i);
    SkippedAppend(events[..i], answers, events[i], answer);
    assert events[..i] + [events[i]] == events[..i + 1];
    DecidedStill(events, answers, answer);
    assert Decided(events, answers + [answer], i);
  }

  /** The `i`-th answer is yes exactly for a wait whose sync count the counter covers then. */
  ghost predicate Decided(events: seq<Event>, answers: seq<bool>, i: nat)
    requires i < |answers| <= |events|
  {
    var count := (Credits(events, i) - SkippedSyncs(events[..i], answers[..i])) % U64;
    answers[i] <==> events[i].Wait? && events[i].present && count > 0 && events[i].syncCount <= count
  }

  lemma DecidedStill(events: seq<Event>, answers: seq<bool>, answer: bool)
    requires |answers| < |events|
    ensures (answers + [answer])[..|answers|] == answers
    ensures forall k :: 0 <= k < |answers| && Decided(events, answers, k) ==> Decided(events, answers + [answer], k)
  {
    forall k | 0 <= k < |answers| && Decided(events, answers, k) ensures Decided(events, answers + [answer], k) {
      assert (answers + [answer])[..k] == answers[..k];
    }
  }

  lemma EntersIff(events: seq<Event>, i: nat)
    requires i < |events|
    ensures Enters(events, i) <==>
              && events[i].Submit? && events[i].found
              && (events[i].iIno % 0x1_0000_0000 in Entered(events, i) || |Entered(events, i)| < 10000)
  {
  }

  lemma CountsOnlyWritebacks(events: seq<Event>, i: nat)
    requires i < |events|
    ensures Counts(events, i) ==> events[i].Writeback?
  {
  }

  lemma SkippedAppend(events: seq<Event>, answers: seq<bool>, e: Event, answer: bool)
    requires |events| == |answers|
    ensures SkippedSyncs(events + [e], answers + [answer])
            == SkippedSyncs(events, answers) + if e.Wait? && answer then e.syncCount else 0
  {
    if events != [] {
      assert (events + [e])[1..] == events[1..] + [e];
      assert (answers + [answer])[1..] == answers[1..] + [answer];
      SkippedAppend(events[1..], answers[1..], e, answer);
    }
  }

  // ---------- Neither hook is atomic ----------

  /** The increment is a load and a later store; a wait hook tests the counter and subtracts from
      it later.  Any number of wait hooks may be between the two. */
  datatype Micro = Load | Store | Test(n: nat) | Subtract(k: nat)

  /** `promised`: the sync counts of wait hooks that passed the test and have yet to subtract. */
  datatype Shared = Shared(count: nat, loaded: bool, value: nat, promised: seq<nat>, writebacks: nat, skipped: nat)

  const START := Shared(0, false, 0, [], 0, 0)

  function Sum(s: seq<nat>): nat {
    if s == [] then 0 else s[0] + Sum(s[1..])
  }

  predicate Passes(s: Shared, n: nat) {
    !(s.count <= 0 || s.count < n)
  }

  function MicroStep(s: Shared, m: Micro): Shared {
    match m
    case Load => if s.loaded then s else s.(loaded := true, value := s.count)
    case Store =>
      if s.loaded then s.(count := s.value + 1, loaded := false, writebacks := s.writebacks + 1) else s
    case Test(n) => if Passes(s, n) then s.(promised := s.promised + [n]) else s
    case Subtract(k) =>
      if k < |s.promised| then
        var n := s.promised[k];
        s.(count := if n <= s.count then s.count - n else (s.count - n) % U64, skipped := s.skipped + n,
           promised := s.promised[..k] + s.promised[k + 1..])
      else s
  }

  function MicroRun(s: Shared, ms: seq<Micro>): Shared
    decreases |ms|
  {
    if ms == [] then s else MicroRun(MicroStep(s, ms[0]), ms[1..])
  }

  /** Waits skipped, or certain to be. */
  function Granted(s: Shared): nat {
    s.skipped + Sum(s.promised)
  }

  /** At no moment have more waits been granted than writebacks were seen. */
  predicate Sound(s: Shared, ms: seq<Micro>)
    decreases |ms|
  {
    Granted(s) <= s.writebacks && (ms != [] ==> Sound(MicroStep(s, ms[0]), ms[1..]))
  }

  /** A test passes only on credits that are not promised already, and nothing is subtracted
      between a load and its store. */
  predicate InTurn(s: Shared, m: Micro) {
    && (m.Test? && Passes(s, m.n) ==> m.n + Sum(s.promised) <= s.count)
    && (m.Subtract? && m.k < |s.promised| && s.promised[m.k] > 0 ==> !s.loaded)
  }

  predicate AllInTurn(s: Shared, ms: seq<Micro>)
    decreases |ms|
  {
    ms != [] ==> InTurn(s, ms[0]) && AllInTurn(MicroStep(s, ms[0]), ms[1..])
  }

  /** Promises are covered, and the counter and what was spent make up for the writebacks. */
  ghost predicate Steady(s: Shared) {
    && Sum(s.promised) <= s.count && s.count + s.skipped >= s.writebacks
    && (s.loaded ==> s.value >= s.count)
  }

  /** What the counter shows in excess, once a pending store is done. */
  function Excess(s: Shared): int {
    (if s.loaded then s.value else s.count) + s.skipped - s.writebacks
  }

  lemma SumAppend(s: seq<nat>, n: nat)
    ensures Sum(s + [n]) == Sum(s) + n
  {
    if s != [] {
      assert (s + [n])[1..] == s[1..] + [n];
      SumAppend(s[1..], n);
    } else {
      assert s + [n] == [n] && [n][1..] == [];
    }
  }

  lemma {:induction false} SumWithout(s: seq<nat>, k: nat)
    requires k < |s|
    ensures Sum(s[..k] + s[k + 1..]) == Sum(s) - s[k]
  {
    var without := s[..k] + s[k + 1..];
    if k == 0 {
      assert without == s[1..];
    } else {
      SumWithout(s[1..], k - 1);
      assert without[0] == s[0] && without[1..] == s[1..][..k - 1] + s[1..][k..];
    }
  }

  /** As long as promises are covered the excess never shrinks, and it grows exactly by what is
      subtracted between a load and its store. */
  lemma SteadyStep(s: Shared, m: Micro)
    requires Steady(s) && (m.Test? ==> InTurn(s, m))
    ensures Steady(MicroStep(s, m)) && Excess(MicroStep(s, m)) >= Excess(s)
    ensures Excess(MicroStep(s, m)) == Excess(s) <==> InTurn(s, m)
  {
    match m
    case Load =>
    case Store =>
    case Test(n) => SumAppend(s.promised, n);
    case Subtract(k) =>
      if k < |s.promised| {
        SumWithout(s.promised, k);
      }
  }

  lemma {:induction false} InTurnIsSound(s: Shared, ms: seq<Micro>)
    requires Steady(s) && Excess(s) == 0 && AllInTurn(s, ms)
    ensures Sound(s, ms)
    decreases |ms|
  {
    hide MicroStep, InTurn;
    if ms != [] {
      SteadyStep(s, ms[0]);
      InTurnIsSound(MicroStep(s, ms[0]), ms[1..]);
    }
  }

  lemma {:induction false} InTurnAppend(s: Shared, ms: seq<Micro>, rest: seq<Micro>)
    requires AllInTurn(s, ms) && AllInTurn(MicroRun(s, ms), rest)
    ensures AllInTurn(s, ms + rest)
    decreases |ms|
  {
    hide MicroStep, InTurn;
    if ms == [] {
      assert ms + rest == rest;
    } else {
      assert (ms + rest)[1..] == ms[1..] + rest;
      InTurnAppend(MicroStep(s, ms[0]), ms[1..], rest);
    }
  }

  lemma OneMore(s: Shared, m: Micro, rest: seq<Micro>)
    ensures Sound(s, [m] + rest) ==> Sound(MicroStep(s, m), rest)
    ensures AllInTurn(s, [m] + rest) <==> InTurn(s, m) && AllInTurn(MicroStep(s, m), rest)
  {
    assert ([m] + rest)[1..] == rest;
  }

  /** Excess can always be spent: finish the store and the subtractions, then test for all that
      the counter shows. */
  lemma {:induction false} ExcessIsSpent(s: Shared) returns (rest: seq<Micro>)
    requires Steady(s) && Excess(s) > 0
    ensures AllInTurn(s, rest) && !Sound(s, rest)
    decreases s.loaded, |s.promised|
  {
    hide AllInTurn, Sound;
    if s.loaded || s.promised != [] {
      var m := if s.loaded then Store else Subtract(0);
      SteadyStep(s, m);
      rest := ExcessIsSpent(MicroStep(s, m));
      OneMore(s, m, rest);
      rest := [m] + rest;
    } else {
      rest := SpendAll(s);
    }
  }

  lemma SpendAll(s: Shared) returns (rest: seq<Micro>)
    requires Steady(s) && Excess(s) > 0 && !s.loaded && s.promised == []
    ensures AllInTurn(s, rest) && !Sound(s, rest)
  {
    rest := if s.count > 0 then [Test(s.count)] else [];
    if s.count > 0 {
      assert rest[1..] == [];
      SumAppend([], s.count);
    }
  }

  lemma Overdrawn(s: Shared, n: nat)
    requires Steady(s) && Passes(s, n) && !InTurn(s, Test(n))
    ensures Granted(MicroStep(s, Test(n))) > s.writebacks == MicroStep(s, Test(n)).writebacks
  {
    SumAppend(s.promised, n);
  }

  lemma NotSoundAfter(s: Shared, m: Micro, rest: seq<Micro>)
    requires Granted(MicroStep(s, m)) > MicroStep(s, m).writebacks
    ensures !Sound(s, [m] + rest)
  {
    OneMore(s, m, rest);
  }

  /** A schedule that gets out of turn, or starts with an excess, has a continuation, itself in
      turn, that grants more waits than there were writebacks. */
  lemma {:induction false} OutOfTurnOverspends(s: Shared, ms: seq<Micro>) returns (rest: seq<Micro>)
    requires Steady(s) && Excess(s) >= 0 && (Excess(s) > 0 || !AllInTurn(s, ms))
    ensures AllInTurn(MicroRun(s, ms), rest) && !Sound(s, ms + rest)
    decreases |ms|
  {
    hide MicroStep, InTurn, Steady, Excess, Granted, Passes;
    if ms == [] {
      rest := ExcessIsSpent(s);
      assert ms + rest == rest;
    } else {
      var m := ms[0];
      if m.Test? && !InTurn(s, m) {
        rest := [];
        TestOutOfTurn(s, m.n);
        NotSoundAfter(s, m, ms[1..] + rest);
      } else {
        SteadyStep(s, m);
        rest := OutOfTurnOverspends(MicroStep(s, m), ms[1..]);
        OneMore(s, m, ms[1..] + rest);
      }
      assert ms + rest == [m] + (ms[1..] + rest);
    }
  }

  lemma TestOutOfTurn(s: Shared, n: nat)
    requires Steady(s) && !InTurn(s, Test(n))
    ensures Granted(MicroStep(s, Test(n))) > MicroStep(s, Test(n)).writebacks
  {
    Overdrawn(s, n);
  }

  /** Skipping stays sound, whatever follows in turn, exactly if the schedule is in turn itself. */
  lemma SplitHooksSoundIff(ms: seq<Micro>)
    ensures AllInTurn(START, ms) <==>
              forall rest :: AllInTurn(MicroRun(START, ms), rest) ==> Sound(START, ms + rest)
  {
    if AllInTurn(START, ms) {
      forall rest | AllInTurn(MicroRun(START, ms), rest) ensures Sound(START, ms + rest) {
        InTurnAppend(START, ms, rest);
        InTurnIsSound(START, ms + rest);
      }
    } else {
      var rest := OutOfTurnOverspends(START, ms);
    }
  }

  /** Hooks that each run in one go. */
  datatype Whole = Increment | WaitHook(n: nat)

  function Micros(ws: seq<Whole>): seq<Micro> {
    if ws == [] then []
    else (if ws[0].Increment? then [Load, Store] else [Test(ws[0].n), Subtract(0)]) + Micros(ws[1..])
  }

  function FirstMicro(w: Whole): Micro {
    if w.Increment? then Load else Test(w.n)
  }

  function SecondMicro(w: Whole): Micro {
    if w.Increment? then Store else Subtract(0)
  }

  /** One hook, run in one go with nobody in between. */
  lemma WholeStep(s: Shared, w: Whole)
    requires Steady(s) && !s.loaded && s.promised == []
    ensures var t := MicroStep(s, FirstMicro(w));
            var u := MicroStep(t, SecondMicro(w));
            && InTurn(s, FirstMicro(w)) && InTurn(t, SecondMicro(w))
            && Steady(u) && !u.loaded && u.promised == []
  {
    SumAppend([], if w.WaitHook? then w.n else 0);
    SteadyStep(s, FirstMicro(w));
    SteadyStep(MicroStep(s, FirstMicro(w)), SecondMicro(w));
  }

  lemma MicrosNext(ws: seq<Whole>)
    requires ws != []
    ensures Micros(ws) == [FirstMicro(ws[0])] + ([SecondMicro(ws[0])] + Micros(ws[1..]))
  {
  }

  /** Hooks that run in one go are always in turn. */
  lemma {:induction false} WholeHooksInTurn(s: Shared, ws: seq<Whole>)
    requires Steady(s) && !s.loaded && s.promised == []
    ensures AllInTurn(s, Micros(ws))
    decreases |ws|
  {
    hide AllInTurn, MicroStep, InTurn, Steady, FirstMicro, SecondMicro;
    if ws == [] {
      NothingOutOfTurn(s);
    } else {
      hide Micros;
      var a, b := FirstMicro(ws[0]), SecondMicro(ws[0]);
      var t := MicroStep(s, a);
      WholeStep(s, ws[0]);
      WholeHooksInTurn(MicroStep(t, b), ws[1..]);
      MicrosNext(ws);
      OneMore(t, b, Micros(ws[1..]));
      OneMore(s, a, [b] + Micros(ws[1..]));
    }
  }

  lemma NothingOutOfTurn(s: Shared)
    ensures AllInTurn(s, [])
  {
  }

  // ---------- Two schedules that overspend ----------

  lemma MicroNext(s: Shared, m: Micro, rest: seq<Micro>)
    ensures MicroRun(s, [m] + rest) == MicroRun(MicroStep(s, m), rest)
  {
    assert ([m] + rest)[1..] == rest;
  }

  lemma TestNext(s: Shared, n: nat, promised: seq<nat>, rest: seq<Micro>)
    requires Passes(s, n) && promised == s.promised + [n]
    ensures MicroRun(s, [Test(n)] + rest) == MicroRun(s.(promised := promised), rest)
  {
    MicroNext(s, Test(n), rest);
  }

  lemma SubtractNext(s: Shared, n: nat, others: seq<nat>, rest: seq<Micro>)
    requires s.promised == [n] + others
    ensures MicroRun(s, [Subtract(0)] + rest)
            == MicroRun(s.(count := if n <= s.count then s.count - n else (s.count - n) % U64, skipped := s.skipped + n,
                           promised := others), rest)
  {
    MicroNext(s, Subtract(0), rest);
    assert s.promised[..0] + s.promised[1..] == others;
  }

  lemma MicroEnd(s: Shared)
    ensures MicroRun(s, []) == s
  {
  }

  lemma OneWriteback(rest: seq<Micro>)
    ensures MicroRun(START, [Load] + ([Store] + rest)) == MicroRun(Shared(1, false, 0, [], 1, 0), rest)
  {
    hide MicroRun;
    MicroNext(START, Load, [Store] + rest);
    MicroNext(Shared(0, true, 0, [], 0, 0), Store, rest);
  }

  lemma TornWriteback(rest: seq<Micro>)
    ensures MicroRun(Shared(1, false, 0, [], 1, 0), [Load] + ([Test(1)] + ([Subtract(0)] + ([Store] + rest))))
            == MicroRun(Shared(2, false, 1, [], 2, 1), rest)
  {
    hide MicroRun;
    MicroNext(Shared(1, false, 0, [], 1, 0), Load, [Test(1)] + ([Subtract(0)] + ([Store] + rest)));
    TestNext(Shared(1, true, 1, [], 1, 0), 1, [1], [Subtract(0)] + ([Store] + rest));
    SubtractNext(Shared(1, true, 1, [1], 1, 0), 1, [], [Store] + rest);
    MicroNext(Shared(0, true, 1, [], 1, 1), Store, rest);
  }

  /** A torn increment: two writebacks, three skipped syncs. */
  lemma TornOverspends() returns (ms: seq<Micro>)
    ensures MicroRun(START, ms).writebacks == 2 && MicroRun(START, ms).skipped == 3
  {
    hide MicroRun;
    var last := [Test(2)] + ([Subtract(0)] + []);
    var rest := [Load] + ([Test(1)] + ([Subtract(0)] + ([Store] + last)));
    ms := [Load] + ([Store] + rest);
    OneWriteback(rest);
    TornWriteback(last);
    TestNext(Shared(2, false, 1, [], 2, 1), 2, [2], [Subtract(0)] + []);
    SubtractNext(Shared(2, false, 1, [2], 2, 1), 2, [], []);
    MicroEnd(Shared(0, false, 1, [], 2, 3));
  }

  /** Two wait hooks spend the same credit, and the counter wraps. */
  lemma DoubleSpendWraps() returns (ms: seq<Micro>)
    ensures var s := MicroRun(START, ms); s.writebacks == 1 && s.skipped == 2 && s.count == U64 - 1
  {
    hide MicroRun;
    var rest := [Test(1)] + ([Test(1)] + ([Subtract(0)] + ([Subtract(0)] + [])));
    ms := [Load] + ([Store] + rest);
    OneWriteback(rest);
    TestNext(Shared(1, false, 0, [], 1, 0), 1, [1], [Test(1)] + ([Subtract(0)] + ([Subtract(0)] + [])));
    TestNext(Shared(1, false, 0, [1], 1, 0), 1, [1, 1], [Subtract(0)] + ([Subtract(0)] + []));
    SubtractNext(Shared(1, false, 0, [1, 1], 1, 0), 1, [1], [Subtract(0)] + []);
    SubtractNext(Shared(0, false, 0, [1], 1, 1), 1, [], []);
    MicroEnd(Shared(U64 - 1, false, 0, [], 1, 2));
  }
}
