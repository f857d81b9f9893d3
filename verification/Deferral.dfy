/** Deferring system calls: queue them, acknowledge them at once, run them at a later flush. */
module Deferral {
  import opened Basics
  import opened World
  import opened Uring

  const BATCH_SIZE := 1024

  // ---------- When two requests may change places ----------

  predicate Disjoint(a: int, m: nat, b: int, n: nat) {
    m == 0 || n == 0 || a + m <= b || b + n <= a
  }

  predicate Stores(op: Op) {
    op.Read? || op.Recv?
  }

  /** Neither stores where the other loads or stores, and no file or stream is shared with a
      request that changes it. */
  predicate Independent(a: Op, b: Op) {
    && ((Stores(a) || Stores(b)) && !a.Fsync? && !b.Fsync? ==> Disjoint(a.buf, a.n, b.buf, b.n))
    && (a.Send? && b.Send? ==> a.fd != b.fd)
    && (a.Recv? && b.Recv? ==> a.fd != b.fd)
    && (a.Write? && (b.Write? || b.Read?) ==> a.fd != b.fd)
    && (b.Write? && a.Read? ==> a.fd != b.fd)
  }

  lemma DoKeepsShape(op: Op, w: World)
    ensures |Do(op, w).mem| == |w.mem|
    ensures Do(op, w).files.Keys == w.files.Keys
    ensures Do(op, w).outbox.Keys == w.outbox.Keys
    ensures Do(op, w).inbox.Keys == w.inbox.Keys
  {
  }

  lemma IndependentBest(a: Op, b: Op, w: World)
    requires Independent(a, b)
    ensures Best(a, Do(b, w)) == Best(a, w)
  {
    DoKeepsShape(b, w);
  }

  /** The bytes a request brings into memory. */
  function Loaded(op: Op, w: World): seq<Byte> {
    if Best(op, w) <= 0 then []
    else if op.Read? then w.files[op.fd][op.off..op.off + Best(op, w)]
    else if op.Recv? then w.inbox[op.fd][..Best(op, w)]
    else []
  }

  /** The bytes a request takes out of memory. */
  function Carried(op: Op, w: World): seq<Byte> {
    if Best(op, w) <= 0 || !(op.Send? || op.Write?) then [] else w.mem[op.buf..op.buf + Best(op, w)]
  }

  function Placed(op: Op, data: seq<Byte>, mem: seq<Byte>): seq<Byte> {
    if op.Fsync? || op.buf < 0 || op.buf + |data| > |mem| then mem else Overwrite(mem, op.buf, data)
  }

  function Filed(op: Op, data: seq<Byte>, files: map<int, seq<Byte>>): map<int, seq<Byte>> {
    if op.Write? && op.off >= 0 && op.fd in files then files[op.fd := Splice(files[op.fd], op.off, data)] else files
  }

  function Sent(op: Op, data: seq<Byte>, outbox: map<int, seq<Byte>>): map<int, seq<Byte>> {
    if op.Send? && op.fd in outbox then outbox[op.fd := outbox[op.fd] + data] else outbox
  }

  function Drained(op: Op, k: int, inbox: map<int, seq<Byte>>): map<int, seq<Byte>> {
    if op.Recv? && op.fd in inbox && 0 < k <= |inbox[op.fd]| then inbox[op.fd := inbox[op.fd][k..]] else inbox
  }

  lemma DoToMemory(op: Op, w: World)
    ensures Do(op, w).mem == Placed(op, Loaded(op, w), w.mem)
    ensures |Loaded(op, w)| <= Len(op) && (!Stores(op) ==> Loaded(op, w) == [])
  {
  }

  lemma DoToFiles(op: Op, w: World)
    ensures Do(op, w).files == Filed(op, Carried(op, w), w.files)
  {
  }

  lemma DoToStreams(op: Op, w: World)
    ensures Do(op, w).outbox == Sent(op, Carried(op, w), w.outbox)
    ensures Do(op, w).inbox == Drained(op, Best(op, w), w.inbox)
  {
    if op.Send? && op.fd in w.outbox {
      assert w.outbox[op.fd] + [] == w.outbox[op.fd];
      assert w.outbox[op.fd := w.outbox[op.fd]] == w.outbox;
    }
  }

  lemma DoByParts(op: Op, w: World)
    ensures Do(op, w) == World(Placed(op, Loaded(op, w), w.mem), Filed(op, Carried(op, w), w.files),
                               Sent(op, Carried(op, w), w.outbox), Drained(op, Best(op, w), w.inbox))
  {
    DoToMemory(op, w);
    DoToFiles(op, w);
    DoToStreams(op, w);
  }

  lemma SameLoad(a: Op, b: Op, w: World)
    requires Independent(a, b)
    ensures Loaded(a, Do(b, w)) == Loaded(a, w)
  {
    IndependentBest(a, b, w);
  }

  lemma SameCarry(a: Op, b: Op, w: World)
    requires Independent(a, b)
    ensures Carried(a, Do(b, w)) == Carried(a, w)
  {
    IndependentBest(a, b, w);
    DoKeepsShape(b, w);
    if Carried(a, w) != [] {
      var k := Best(a, w);
      assert forall i :: a.buf <= i < a.buf + k ==> Do(b, w).mem[i] == w.mem[i];
    }
  }

  lemma OverwriteElsewhere(s: seq<Byte>, a: nat, x: seq<Byte>, b: nat, y: seq<Byte>)
    requires a + |x| <= |s| && b + |y| <= |s| && Disjoint(a, |x|, b, |y|)
    ensures Overwrite(Overwrite(s, a, x), b, y) == Overwrite(Overwrite(s, b, y), a, x)
  {
  }

  lemma PlacedNothing(op: Op, mem: seq<Byte>)
    ensures Placed(op, [], mem) == mem
  {
  }

  lemma PlacedCommute(a: Op, b: Op, x: seq<Byte>, y: seq<Byte>, mem: seq<Byte>)
    requires |x| <= Len(a) && |y| <= Len(b) && (!Stores(a) ==> x == []) && (!Stores(b) ==> y == [])
    requires Independent(a, b)
    ensures Placed(a, x, Placed(b, y, mem)) == Placed(b, y, Placed(a, x, mem))
  {
    hide Overwrite;
    if x == [] {
      PlacedNothing(a, mem);
      PlacedNothing(a, Placed(b, y, mem));
    } else if y == [] {
      PlacedNothing(b, mem);
      PlacedNothing(b, Placed(a, x, mem));
    } else if 0 <= a.buf && a.buf + |x| <= |mem| && 0 <= b.buf && b.buf + |y| <= |mem| {
      OverwriteElsewhere(mem, a.buf, x, b.buf, y);
    }
  }

  /** Independent requests may change places. */
  lemma Commute(a: Op, b: Op, w: World)
    requires Independent(a, b)
    ensures Do(a, Do(b, w)) == Do(b, Do(a, w))
  {
    hide Do, Best, Placed, Loaded, Carried;
    DoByParts(a, w);
    DoByParts(b, w);
    DoByParts(a, Do(b, w));
    DoByParts(b, Do(a, w));
    SameLoad(a, b, w);
    SameLoad(b, a, w);
    SameCarry(a, b, w);
    SameCarry(b, a, w);
    IndependentBest(a, b, w);
    IndependentBest(b, a, w);
    DoToMemory(a, w);
    DoToMemory(b, w);
    PlacedCommute(a, b, Loaded(a, w), Loaded(b, w), w.mem);
  }

  // ---------- A batch whose chains run side by side ----------

  ghost predicate AllIndependent(a: seq<Op>, b: seq<Op>) {
    forall k, l :: 0 <= k < |a| && 0 <= l < |b| ==> Independent(a[k], b[l])
  }

  /** Requests of different chains are independent. */
  ghost predicate CrossIndependent(chains: seq<seq<Op>>) {
    forall i, j :: 0 <= i < j < |chains| ==> AllIndependent(chains[i], chains[j])
  }

  lemma {:induction false} MoveToFront(front: seq<Op>, op: Op, w: World)
    requires forall i :: 0 <= i < |front| ==> Independent(front[i], op)
    ensures DoAll(front, Do(op, w)) == Do(op, DoAll(front, w))
  {
    if front != [] {
      Commute(front[0], op, w);
      MoveToFront(front[1..], op, Do(front[0], w));
    }
  }

  lemma InFlatten(chains: seq<seq<Op>>, k: nat)
    requires k < |Flatten(chains)|
    ensures exists i, l :: 0 <= i < |chains| && 0 <= l < |chains[i]| && Flatten(chains)[k] == chains[i][l]
  {
    if k < |chains[0]| {
      assert Flatten(chains)[k] == chains[0][k];
    } else {
      InFlatten(chains[1..], k - |chains[0]|);
      var i, l :| 0 <= i < |chains[1..]| && 0 <= l < |chains[1..][i]|
                  && Flatten(chains[1..])[k - |chains[0]|] == chains[1..][i][l];
      assert chains[1..][i] == chains[i + 1];
    }
  }

  lemma AdvanceKeepsIndependence(chains: seq<seq<Op>>, i: nat)
    requires i < |chains| && chains[i] != [] && CrossIndependent(chains)
    ensures CrossIndependent(Advance(chains, i))
  {
    var next := Advance(chains, i);
    forall j, k | 0 <= j < k < |next| ensures AllIndependent(next[j], next[k]) {
      var skip := if |chains[i]| == 1 then 1 else 0;
      var j', k' := if j < i then j else j + skip, if k < i then k else k + skip;
      assert AllIndependent(chains[j'], chains[k']);
      assert next[j] == if j' == i then chains[i][1..] else chains[j'];
      assert next[k] == if k' == i then chains[i][1..] else chains[k'];
    }
  }

  /** If chains are independent of each other, every order the kernel may choose has the
      effect of the queue order. */
  lemma {:induction false} MergeHasQueueEffect(chains: seq<seq<Op>>, order: seq<Op>, w: World)
    requires Merge(chains, order) && CrossIndependent(chains)
    ensures DoAll(order, w) == DoAll(Flatten(chains), w)
    decreases |order|
  {
    hide Do, Independent;
    if order != [] {
      var i :| 0 <= i < |chains| && MergeFrom(chains, order, i);
      var op, front, rest := order[0], Flatten(chains[..i]), Flatten(chains[i + 1..]);
      AdvanceKeepsIndependence(chains, i);
      MergeHasQueueEffect(Advance(chains, i), order[1..], Do(op, w));
      FlattenAdvance(chains, i);
      FlattenSplit(chains, i);
      forall k | 0 <= k < |front| ensures Independent(front[k], op) {
        InFlatten(chains[..i], k);
        assert chains[i][0] == op;
      }
      MoveToFront(front, op, w);
      var tail := chains[i][1..];
      assert chains[i] == [op] + tail;
      assert front + tail + rest == front + (tail + rest);
      assert Flatten(chains) == front + ([op] + (tail + rest));
      DoAllAppend(front, tail + rest, Do(op, w));
      DoAllAppend(front, [op] + (tail + rest), w);
      assert ([op] + (tail + rest))[1..] == tail + rest;
    }
  }

  // ---------- Programs ----------

  /** The calls the hooks know. */
  type HookOp = op: Op | op.Read? || op.Send? || op.Recv? witness Recv(0, 0, 0)

  /** A program is the calls it makes, and what it computes in between.  `refused` says that
      the submission helper turned the call down. */
  datatype Event =
    | Call(pid: int, op: HookOp, refused: bool)
    | Compute(src: int, n: nat, dst: int, f: seq<Byte> -> seq<Byte>)

  function Computed(src: int, n: nat, dst: int, f: seq<Byte> -> seq<Byte>, mem: seq<Byte>): seq<Byte> {
    if 0 <= src && src + n <= |mem| && 0 <= dst && dst + n <= |mem| && |f(mem[src..src + n])| == n then
      Overwrite(mem, dst, f(mem[src..src + n]))
    else mem
  }

  function Tick(e: Event, w: World): World {
    match e
    case Call(_, op, _) => Do(op, w)
    case Compute(src, n, dst, f) => w.(mem := Computed(src, n, dst, f, w.mem))
  }

  /** The program without hooks: every call runs at once. */
  function Immediate(events: seq<Event>, w: World): World {
    if events == [] then w else Immediate(events[1..], Tick(events[0], w))
  }

  predicate Taken(e: Event) {
    e.Call? && e.op.fd >= 3 && !e.refused
  }

  /** The program under the hooks: accepted calls wait until 1024 of them are queued, or until
      the end. */
  function Deferred(events: seq<Event>, pending: seq<Op>, w: World): World
    decreases |events|
  {
    if events == [] then DoAll(pending, w)
    else if !Taken(events[0]) then Deferred(events[1..], pending, Tick(events[0], w))
    else if |pending| + 1 < BATCH_SIZE then Deferred(events[1..], pending + [events[0].op], w)
    else Deferred(events[1..], [], DoAll(pending + [events[0].op], w))
  }

  function NextPending(e: Event, pending: seq<Op>): seq<Op> {
    if !Taken(e) then pending
    else if |pending| + 1 < BATCH_SIZE then pending + [e.op]
    else []
  }

  /** `e` leaves the buffers of the waiting request `p` alone. */
  predicate Spares(e: Event, p: Op) {
    match e
    case Call(_, op, _) => Independent(op, p)
    case Compute(src, n, dst, _) =>
      p.Fsync? || (Disjoint(dst, n, p.buf, p.n) && (Stores(p) ==> Disjoint(src, n, p.buf, p.n)))
  }

  /** Whatever runs while calls are waiting leaves their buffers alone. */
  ghost predicate Quiet(events: seq<Event>, pending: seq<Op>)
    decreases |events|
  {
    events != [] ==>
      && (!Taken(events[0]) ==> forall i :: 0 <= i < |pending| ==> Spares(events[0], pending[i]))
      && Quiet(events[1..], NextPending(events[0], pending))
  }

  lemma ComputeKeepsBest(e: Event, p: Op, w: World)
    requires e.Compute?
    ensures Best(p, Tick(e, w)) == Best(p, w)
  {
  }

  lemma ComputedBesides(e: Event, at: nat, data: seq<Byte>, mem: seq<Byte>)
    requires e.Compute? && at + |data| <= |mem|
    requires Disjoint(e.dst, e.n, at, |data|) && Disjoint(e.src, e.n, at, |data|)
    ensures Computed(e.src, e.n, e.dst, e.f, Overwrite(mem, at, data))
            == Overwrite(Computed(e.src, e.n, e.dst, e.f, mem), at, data)
  {
    var put := Overwrite(mem, at, data);
    if 0 <= e.src && e.src + e.n <= |mem| && 0 <= e.dst && e.dst + e.n <= |mem| {
      assert put[e.src..e.src + e.n] == mem[e.src..e.src + e.n];
      var d := e.f(mem[e.src..e.src + e.n]);
      if |d| == e.n {
        OverwriteElsewhere(mem, at, data, e.dst, d);
      }
    }
  }

  lemma ComputeBesidesPlacing(e: Event, p: Op, data: seq<Byte>, mem: seq<Byte>)
    requires e.Compute? && Spares(e, p) && |data| <= Len(p) && (!Stores(p) ==> data == [])
    ensures Computed(e.src, e.n, e.dst, e.f, Placed(p, data, mem))
            == Placed(p, data, Computed(e.src, e.n, e.dst, e.f, mem))
  {
    var after := Computed(e.src, e.n, e.dst, e.f, mem);
    if data == [] {
      assert Placed(p, data, mem) == mem;
      assert Placed(p, data, after) == after;
    } else if 0 <= p.buf && p.buf + |data| <= |mem| {
      ComputedBesides(e, p.buf, data, mem);
    }
  }

  lemma ComputeKeepsParts(e: Event, p: Op, w: World)
    requires e.Compute? && Spares(e, p)
    ensures Loaded(p, Tick(e, w)) == Loaded(p, w)
    ensures Carried(p, Tick(e, w)) == Carried(p, w)
  {
    ComputeKeepsBest(e, p, w);
    if Carried(p, w) != [] {
      var k := Best(p, w);
      assert Tick(e, w).mem[p.buf..p.buf + k] == w.mem[p.buf..p.buf + k];
    }
  }

  lemma SparedCompute(e: Event, p: Op, w: World)
    requires e.Compute? && Spares(e, p)
    ensures Tick(e, Do(p, w)) == Do(p, Tick(e, w))
  {
    var after := Tick(e, w);
    DoByParts(p, w);
    DoByParts(p, after);
    DoToMemory(p, w);
    ComputeKeepsParts(e, p, w);
    ComputeKeepsBest(e, p, w);
    ComputeBesidesPlacing(e, p, Loaded(p, w), w.mem);
  }

  lemma SparedCommutes(e: Event, p: Op, w: World)
    requires Spares(e, p)
    ensures Tick(e, Do(p, w)) == Do(p, Tick(e, w))
  {
    match e
    case Call(_, op, _) => Commute(op, p, w);
    case Compute(_, _, _, _) => SparedCompute(e, p, w);
  }

  lemma {:induction false} SparedByAll(e: Event, pending: seq<Op>, w: World)
    requires forall i :: 0 <= i < |pending| ==> Spares(e, pending[i])
    ensures Tick(e, DoAll(pending, w)) == DoAll(pending, Tick(e, w))
  {
    if pending != [] {
      SparedCommutes(e, pending[0], w);
      SparedByAll(e, pending[1..], Do(pending[0], w));
    }
  }

  /** Deferring accepted calls does not change what the program does to memory, files and
      streams, if the program leaves the buffers of waiting calls alone. */
  lemma {:induction false} DeferralPreservesMeaning(events: seq<Event>, pending: seq<Op>, w: World)
    requires Quiet(events, pending)
    ensures Deferred(events, pending, w) == Immediate(events, DoAll(pending, w))
    decreases |events|
  {
    if events != [] {
      var e := events[0];
      if !Taken(e) {
        SparedByAll(e, pending, w);
        DeferralPreservesMeaning(events[1..], pending, Tick(e, w));
      } else {
        DoAllAppend(pending, [e.op], w);
        assert [e.op][1..] == [];
        if |pending| + 1 < BATCH_SIZE {
          DeferralPreservesMeaning(events[1..], pending + [e.op], w);
        } else {
          DeferralPreservesMeaning(events[1..], [], DoAll(pending + [e.op], w));
        }
      }
    }
  }

  lemma TwoEvents(call: Event, look: Event, w: World)
    requires Taken(call) && look.Compute?
    ensures Deferred([call, look], [], w) == Do(call.op, Tick(look, w))
    ensures Immediate([call, look], w) == Tick(look, Do(call.op, w))
  {
    hide Do, Computed;
    var events, op: Op := [call, look], call.op;
    assert events[1..] == [look] && [look][1..] == [] && [op][1..] == [];
    assert [] + [op] == [op];
    assert Deferred(events, [], w) == Deferred([look], [op], w);
    assert Deferred([look], [op], w) == Deferred([], [op], Tick(look, w));
    assert DoAll([op], Tick(look, w)) == DoAll([], Do(op, Tick(look, w)));
    assert Immediate(events, w) == Immediate([look], Do(op, w));
    assert Immediate([look], Do(op, w)) == Immediate([], Tick(look, Do(op, w)));
  }

  lemma DoTwo(a: Op, b: Op, w: World)
    ensures DoAll([a, b], w) == Do(b, Do(a, w))
  {
    hide Do;
    assert [a, b][1..] == [b] && [b][1..] == [];
    assert DoAll([b], Do(a, w)) == DoAll([], Do(b, Do(a, w)));
  }

  /** The program copies `m` bytes from `src` to `dst`. */
  function Copying(src: nat, m: nat, dst: nat): Event {
    Compute(src, m, dst, bytes => bytes)
  }

  lemma CopyingCopies(w: World, src: nat, m: nat, dst: nat)
    requires src + m <= |w.mem| && dst + m <= |w.mem|
    ensures Tick(Copying(src, m, dst), w) == w.(mem := Overwrite(w.mem, dst, w.mem[src..src + m]))
  {
  }

  lemma ReadLoads(read: Op, w: World)
    requires read.Read? && Best(read, w) >= 0
    ensures 0 <= read.buf && read.buf + |Loaded(read, w)| <= |w.mem|
    ensures Do(read, w) == w.(mem := Overwrite(w.mem, read.buf, Loaded(read, w)))
  {
    if Best(read, w) == 0 {
      assert Overwrite(w.mem, read.buf, []) == w.mem;
    }
  }

  lemma SameReadAside(read: Op, w: World, mem: seq<Byte>)
    requires read.Read? && |mem| == |w.mem|
    ensures var v := w.(mem := mem); Best(read, v) == Best(read, w) && Loaded(read, v) == Loaded(read, w)
  {
  }

  /** Byte `i` of the copy comes out the same before and after `data` is stored at `buf`. */
  ghost predicate CopyAgreesAt(mem: seq<Byte>, buf: nat, data: seq<Byte>, src: nat, dst: nat, i: nat)
    requires buf + |data| <= |mem| && src + i < |mem| && dst + i < |mem|
  {
    Overwrite(mem, buf, data)[src + i] == if buf <= dst + i < buf + |data| then data[dst + i - buf] else mem[src + i]
  }

  ghost predicate CopyAgrees(mem: seq<Byte>, buf: nat, data: seq<Byte>, src: nat, m: nat, dst: nat)
    requires buf + |data| <= |mem| && src + m <= |mem| && dst + m <= |mem|
  {
    forall i :: 0 <= i < m ==> CopyAgreesAt(mem, buf, data, src, dst, i)
  }

  lemma CopyAt(mem: seq<Byte>, buf: nat, data: seq<Byte>, src: nat, m: nat, dst: nat, i: nat)
    requires buf + |data| <= |mem| && src + m <= |mem| && dst + m <= |mem| && i < m
    ensures var after := Overwrite(mem, buf, data);
            Overwrite(Overwrite(mem, dst, mem[src..src + m]), buf, data)[dst + i]
            == Overwrite(after, dst, after[src..src + m])[dst + i]
            <==> CopyAgreesAt(mem, buf, data, src, dst, i)
  {
  }

  lemma CopyBeforeOrAfter(mem: seq<Byte>, buf: nat, data: seq<Byte>, src: nat, m: nat, dst: nat)
    requires buf + |data| <= |mem| && src + m <= |mem| && dst + m <= |mem|
    ensures var after := Overwrite(mem, buf, data);
            Overwrite(Overwrite(mem, dst, mem[src..src + m]), buf, data) == Overwrite(after, dst, after[src..src + m])
            <==> CopyAgrees(mem, buf, data, src, m, dst)
  {
    hide CopyAgreesAt;
    var after := Overwrite(mem, buf, data);
    var late := Overwrite(Overwrite(mem, dst, mem[src..src + m]), buf, data);
    var soon := Overwrite(after, dst, after[src..src + m]);
    forall i: nat | i < m ensures late[dst + i] == soon[dst + i] <==> CopyAgreesAt(mem, buf, data, src, dst, i) {
      CopyAt(mem, buf, data, src, m, dst, i);
    }
    if CopyAgrees(mem, buf, data, src, m, dst) {
      forall p | 0 <= p < |mem| ensures late[p] == soon[p] {
        if dst <= p < dst + m {
          assert CopyAgreesAt(mem, buf, data, src, dst, p - dst);
        }
      }
    }
  }

  /** A program that copies memory while a pread waits ends as without hooks exactly if the bytes
      it copies, and those it copies over, come out the same either way. */
  lemma EarlyCopyIff(w: World, fd: int, buf: nat, n: nat, off: nat, src: nat, m: nat, dst: nat)
    requires fd >= 3 && Best(Read(fd, buf, n, off), w) >= 0 && src + m <= |w.mem| && dst + m <= |w.mem|
    ensures buf + |Loaded(Read(fd, buf, n, off), w)| <= |w.mem|
    ensures var events := [Call(0, Read(fd, buf, n, off), false), Copying(src, m, dst)];
            Deferred(events, [], w) == Immediate(events, w)
            <==> CopyAgrees(w.mem, buf, Loaded(Read(fd, buf, n, off), w), src, m, dst)
  {
    hide Do, Tick, Deferred, Immediate, Loaded, CopyAgrees, Best;
    var read: HookOp, look := Read(fd, buf, n, off), Copying(src, m, dst);
    var data := Loaded(read, w);
    ReadLoads(read, w);
    TwoEvents(Call(0, read, false), look, w);
    CopyingCopies(w, src, m, dst);
    CopyingCopies(Do(read, w), src, m, dst);
    SameReadAside(read, w, Overwrite(w.mem, dst, w.mem[src..src + m]));
    ReadLoads(read, Tick(look, w));
    CopyBeforeOrAfter(w.mem, buf, data, src, m, dst);
  }

  /** A program that looks at the buffer of a waiting pread, and keeps what it saw elsewhere, is
      unharmed exactly if every byte it looked at already was the byte to be read. */
  lemma EarlyLookIff(w: World, fd: int, buf: nat, n: nat, off: nat, src: nat, m: nat, dst: nat)
    requires fd >= 3 && Best(Read(fd, buf, n, off), w) >= 0 && src + m <= |w.mem| && dst + m <= |w.mem|
    requires Disjoint(dst, m, buf, Best(Read(fd, buf, n, off), w))
    ensures var events := [Call(0, Read(fd, buf, n, off), false), Copying(src, m, dst)];
            var k := Best(Read(fd, buf, n, off), w);
            Deferred(events, [], w) == Immediate(events, w)
            <==> forall p :: src <= p < src + m && buf <= p < buf + k ==> w.mem[p] == w.files[fd][off + (p - buf)]
  {
    hide Deferred, Immediate;
    EarlyCopyIff(w, fd, buf, n, off, src, m, dst);
    var data := Loaded(Read(fd, buf, n, off), w);
    var after := Overwrite(w.mem, buf, data);
    if CopyAgrees(w.mem, buf, data, src, m, dst) {
      forall p | src <= p < src + m && buf <= p < buf + |data| ensures w.mem[p] == data[p - buf] {
        assert CopyAgreesAt(w.mem, buf, data, src, dst, p - src);
      }
    }
  }

  // ---------- Batches as the hooks link them ----------

  /** pread and send are linked to the next request, recv is not. */
  function HookLinks(ops: seq<Op>): (r: seq<bool>)
    ensures |r| == |ops| && forall i :: 0 <= i < |ops| ==> r[i] == !ops[i].Recv?
  {
    seq(|ops|, i requires 0 <= i < |ops| => !ops[i].Recv?)
  }

  /** The ring once `batch` has been handed to the kernel. */
  function Launched(batch: seq<Op>, w: World): Ring {
    Ring(BATCH_SIZE, [], Chains(batch, HookLinks(batch)), [], w)
  }

  /** Whatever calls are queued with these links, the kernel completes them in call order. */
  ghost predicate OrderForced(link: seq<bool>) {
    forall batch: seq<HookOp>, w, order ::
      HookLinks(batch) == link && Takes(Launched(batch, w), order) ==> order == batch
  }

  lemma LinkedForces(link: seq<bool>)
    requires forall i :: 0 <= i < |link| - 1 ==> link[i]
    ensures OrderForced(link)
  {
    forall batch: seq<HookOp>, w, order | HookLinks(batch) == link && Takes(Launched(batch, w), order)
      ensures order == batch
    {
      TakesMerge(Launched(batch, w), order);
      LinkedOrder<Op>(batch, link, order);
    }
  }

  /** The second chain may come first. */
  lemma SecondChainFirst(batch: seq<Op>, link: seq<bool>, i: nat) returns (order: seq<Op>)
    requires |batch| == |link| && i < |link| - 1 && !link[i]
    requires forall j, k :: 0 <= j < k < |batch| ==> batch[j] != batch[k]
    ensures Merge(Chains(batch, link), order) && order != batch
  {
    var chains := Chains(batch, link);
    GapMakesTwoChains(batch, link, i);
    var others := Without(chains, 1);
    MergeInOrder(others);
    MergeChainFirst(chains, 1, Flatten(others));
    order := chains[1] + Flatten(others);
    FlattenSplit(chains, 1);
    assert chains[..1] == [chains[0]];
    assert Flatten([chains[0]]) == chains[0];
    assert batch[|chains[0]|] == chains[1][0] == order[0];
    assert chains[0] != [] && order[0] != batch[0];
  }

  /** Calls of no bytes, each on a socket of its own, linked as `link` says. */
  function EmptyCalls(link: seq<bool>): (r: seq<HookOp>)
    ensures |r| == |link| && HookLinks(r) == link
    ensures forall i :: 0 <= i < |r| ==> r[i] == if link[i] then Send(i + 3, 0, 0) else Recv(i + 3, 0, 0)
  {
    seq(|link|, i requires 0 <= i < |link| => if link[i] then Send(i + 3, 0, 0) else Recv(i + 3, 0, 0))
  }

  function EmptyStreams(n: nat): (r: map<int, seq<Byte>>)
    ensures forall i :: i in r <==> 3 <= i < n + 3
    ensures forall i :: i in r ==> r[i] == []
  {
    if n == 0 then map[] else EmptyStreams(n - 1)[n + 2 := []]
  }

  function EmptySockets(n: nat): World {
    World([], map[], EmptyStreams(n), EmptyStreams(n))
  }

  lemma EmptyCallsNeverSever(link: seq<bool>, order: seq<Op>)
    requires forall i :: 0 <= i < |order| ==> order[i] in EmptyCalls(link)
    ensures NeverSevers(order, EmptySockets(|link|))
  {
    if order != [] {
      var w := EmptySockets(|link|);
      assert order[0] in EmptyCalls(link);
      assert Best(order[0], w) == 0;
      EmptyCallsNeverSever(link, order[1..]);
    }
  }

  lemma GapFrees(link: seq<bool>, i: nat)
    requires i < |link| - 1 && !link[i]
    ensures !OrderForced(link)
  {
    hide Chains, Runs, PostedBy, Plain;
    var batch: seq<Op>, w := EmptyCalls(link), EmptySockets(|link|);
    var order := SecondChainFirst(batch, link, i);
    MergeKeepsAll(Chains(batch, link), order);
    forall k | 0 <= k < |order| ensures order[k] in batch {
      assert order[k] in multiset(order);
    }
    EmptyCallsNeverSever(link, order);
    var sched := MergeReached(Launched(batch, w), order);
    assert Takes(Launched(batch, w), order);
  }

  /** The kernel is bound to call order exactly when no unlinked entry stands before the last
      one: in all other cases it has a schedule that departs from it. */
  lemma QueueOrderForcedIff(link: seq<bool>)
    ensures OrderForced(link) <==> forall i :: 0 <= i < |link| - 1 ==> link[i]
  {
    if i :| 0 <= i < |link| - 1 && !link[i] {
      GapFrees(link, i);
    } else {
      LinkedForces(link);
    }
  }

  ghost predicate Orderly(batch: seq<Op>) {
    CrossIndependent(Chains(batch, HookLinks(batch)))
  }

  ghost predicate OrderlyBatches(events: seq<Event>, pending: seq<Op>)
    decreases |events|
  {
    if events == [] then Orderly(pending)
    else
      && (Taken(events[0]) && |pending| + 1 >= BATCH_SIZE ==> Orderly(pending + [events[0].op]))
      && OrderlyBatches(events[1..], NextPending(events[0], pending))
  }

  /** What one flush of `batch` did, told by its completions. */
  ghost predicate Flushed(batch: seq<Op>, posted: seq<Cqe>, w: World, w': World) {
    && Merge(Chains(batch, HookLinks(batch)), Ops(posted))
    && w' == Replay(posted, w)
    && (AllFull(posted) ==> w' == DoAll(Ops(posted), w))
  }

  lemma OrderlyFlush(batch: seq<Op>, posted: seq<Cqe>, w: World, w': World)
    requires Flushed(batch, posted, w, w') && AllFull(posted) && Orderly(batch)
    ensures w' == DoAll(batch, w)
  {
    MergeHasQueueEffect(Chains(batch, HookLinks(batch)), Ops(posted), w);
  }

  lemma LastFlushRefinesDeferred(pending: seq<Op>, posted: seq<Cqe>, w: World, w': World)
    requires OrderlyBatches([], pending) && Flushed(pending, posted, w, w') && AllFull(posted)
    ensures w' == Deferred([], pending, w)
  {
    OrderlyFlush(pending, posted, w, w');
  }

  lemma WithoutRecvOrderly(batch: seq<Op>)
    requires forall i :: 0 <= i < |batch| - 1 ==> !batch[i].Recv?
    ensures Orderly(batch)
  {
    if batch != [] {
      AllLinkedIsOneChain(batch, HookLinks(batch));
    }
  }

  /** Programs without recv need no side condition on the order of completions. */
  lemma {:induction false} WithoutRecvOrderlyBatches(events: seq<Event>, pending: seq<Op>)
    requires forall i :: 0 <= i < |pending| ==> !pending[i].Recv?
    requires forall i :: 0 <= i < |events| && Taken(events[i]) ==> !events[i].op.Recv?
    ensures OrderlyBatches(events, pending)
    decreases |events|
  {
    if events == [] {
      WithoutRecvOrderly(pending);
    } else {
      if Taken(events[0]) {
        WithoutRecvOrderly(pending + [events[0].op]);
      }
      WithoutRecvOrderlyBatches(events[1..], NextPending(events[0], pending));
    }
  }

  /** A recv cuts the order: a schedule runs the send of its bytes first, which is harmless
      exactly if the bytes received are the ones that were there. */
  lemma RecvCutsOrderIff(w: World, sock: int, out: int, buf: nat, n: nat, m: nat)
    requires buf + n <= |w.mem| && buf + m <= |w.mem| && sock in w.inbox && out in w.outbox
    ensures var batch := [Recv(sock, buf, n), Send(out, buf, m)];
            var order := [batch[1], batch[0]];
            var k := Min(m, Best(batch[0], w));
            && ByRun(Launched(batch, w), Plain(order, w), DoAll(order, w))
            && (DoAll(order, w) == DoAll(batch, w) <==> w.mem[buf..buf + k] == w.inbox[sock][..k])
  {
    hide Launched, Do, Best, DoAll, Plain, Runs, PostedBy, Merge;
    var recv, send := Recv(sock, buf, n), Send(out, buf, m);
    var batch, order := [recv, send], [send, recv];
    SendMayGoFirst(recv, send, w);
    var sched := MergeReached(Launched(batch, w), order);
    DoTwo(recv, send, w);
    DoTwo(send, recv, w);
    SwapSendRecv(w, recv, send);
  }

  lemma SwapSendRecv(w: World, recv: Op, send: Op)
    requires recv.Recv? && send.Send? && recv.buf == send.buf >= 0
    requires recv.buf + recv.n <= |w.mem| && send.buf + send.n <= |w.mem| && recv.fd in w.inbox && send.fd in w.outbox
    ensures var k := Min(send.n, Best(recv, w));
            Do(recv, Do(send, w)) == Do(send, Do(recv, w)) <==>
              w.mem[recv.buf..recv.buf + k] == w.inbox[recv.fd][..k]
  {
    hide Do, Best;
    var k, out := Min(send.n, Best(recv, w)), w.outbox[send.fd];
    var received, before := Do(recv, w), w.mem[send.buf..send.buf + send.n];
    RecvStores(recv, w, w.outbox[send.fd := out + before]);
    var after := received.mem[send.buf..send.buf + send.n];
    SendAppends(w, send);
    SendAppends(received, send);
    assert Do(send, received) == received.(outbox := w.outbox[send.fd := out + after]);
    assert Do(recv, Do(send, w)) == received.(outbox := w.outbox[send.fd := out + before]);
    assert w.outbox[send.fd := out + after][send.fd] == out + after;
    assert w.outbox[send.fd := out + before][send.fd] == out + before;
    AppendSame(out, before, after);
    var data := w.inbox[recv.fd][..Best(recv, w)];
    assert data[..k] == w.inbox[recv.fd][..k];
    OverwriteSeen(w.mem, recv.buf, data, send.n);
  }

  lemma OverwriteSeen(mem: seq<Byte>, at: nat, data: seq<Byte>, m: nat)
    requires at + |data| <= |mem| && at + m <= |mem|
    ensures var k := Min(m, |data|);
            Overwrite(mem, at, data)[at..at + m] == mem[at..at + m] <==> mem[at..at + k] == data[..k]
  {
    var k := Min(m, |data|);
    var after, before := Overwrite(mem, at, data)[at..at + m], mem[at..at + m];
    var there := mem[at..at + k];
    assert forall i :: 0 <= i < m ==> after[i] == if i < |data| then data[i] else before[i];
    assert forall i :: 0 <= i < k ==> there[i] == before[i] && data[..k][i] == after[i];
    if there == data[..k] {
      forall i | 0 <= i < m ensures after[i] == before[i] {
        if i < k {
          assert there[i] == data[..k][i];
        }
      }
    }
  }

  lemma RecvStores(recv: Op, w: World, outbox: map<int, seq<Byte>>)
    requires recv.Recv? && recv.fd in w.inbox && 0 <= recv.buf && recv.buf + recv.n <= |w.mem|
    ensures var k := Best(recv, w);
            && 0 <= k <= |w.inbox[recv.fd]| && k <= recv.n
            && Do(recv, w).mem == Overwrite(w.mem, recv.buf, w.inbox[recv.fd][..k])
            && Do(recv, w).outbox == w.outbox
    ensures Do(recv, w.(outbox := outbox)) == Do(recv, w).(outbox := outbox)
  {
  }

  lemma AppendSame(s: seq<Byte>, a: seq<Byte>, b: seq<Byte>)
    ensures s + a == s + b <==> a == b
  {
    if s + a == s + b {
      assert a == (s + a)[|s|..] && b == (s + b)[|s|..];
    }
  }

  lemma SendAppends(w: World, send: Op)
    requires send.Send? && 0 <= send.buf && send.buf + send.n <= |w.mem| && send.fd in w.outbox
    ensures Do(send, w) == w.(outbox := w.outbox[send.fd := w.outbox[send.fd] + w.mem[send.buf..send.buf + send.n]])
  {
    if send.n == 0 {
      assert w.mem[send.buf..send.buf + send.n] == [];
      assert w.outbox[send.fd] + [] == w.outbox[send.fd];
      assert w.outbox[send.fd := w.outbox[send.fd]] == w.outbox;
    }
  }

  lemma SendMayGoFirst(recv: Op, send: Op, w: World)
    requires recv.Recv? && send.Send?
    ensures Merge(Launched([recv, send], w).flying, [send, recv]) && AllSingle(Launched([recv, send], w).flying)
    ensures Launched([recv, send], w).world == w
  {
    var batch := [recv, send];
    var chains := Chains(batch, HookLinks(batch));
    assert batch[1..] == [send];
    assert HookLinks(batch)[1..] == HookLinks([send]);
    AllLinkedIsOneChain([send], HookLinks([send]));
    assert chains == [[recv], [send]];
    assert Without(chains, 1) == [[recv]];
    MergeInOrder([[recv]]);
    assert Flatten([[recv]]) == [recv];
    MergeChainFirst(chains, 1, [recv]);
    assert [send] + [recv] == [send, recv];
  }
}
