/** What the side conditions of deferral ask of a program, said of its calls alone. */
module SideConditions {
  import opened Basics
  import opened World
  import opened Uring
  import opened ChainOrder
  import opened Deferral

  // ---------- Independent requests ----------

  datatype Thing = Cell(at: int) | File(fd: int) | Outbox(fd: int) | Inbox(fd: int)

  predicate Within(at: int, from: int, n: nat) {
    from <= at < from + n
  }

  predicate Changes(op: Op, t: Thing) {
    match t
    case Cell(at) => (op.Read? || op.Recv?) && Within(at, op.buf, op.n)
    case File(fd) => op.Write? && op.fd == fd
    case Outbox(fd) => op.Send? && op.fd == fd
    case Inbox(fd) => op.Recv? && op.fd == fd
  }

  predicate Uses(op: Op, t: Thing) {
    match t
    case Cell(at) => !op.Fsync? && Within(at, op.buf, op.n)
    case File(fd) => (op.Read? || op.Write?) && op.fd == fd
    case Outbox(fd) => op.Send? && op.fd == fd
    case Inbox(fd) => op.Recv? && op.fd == fd
  }

  /** Two requests are independent exactly if neither uses what the other changes. */
  lemma {:induction false} IndependentIff(a: Op, b: Op)
    ensures Independent(a, b) <==> forall t :: !(Changes(a, t) && Uses(b, t)) && !(Uses(a, t) && Changes(b, t))
  {
    var x := if a.Fsync? || b.Fsync? then 0 else Max(a.buf, b.buf);
    var ts := [Cell(x), File(a.fd), Outbox(a.fd), Inbox(a.fd)];
    if forall t :: !(Changes(a, t) && Uses(b, t)) && !(Uses(a, t) && Changes(b, t)) {
      forall i | 0 <= i < 4 ensures !(Changes(a, ts[i]) && Uses(b, ts[i])) && !(Uses(a, ts[i]) && Changes(b, ts[i])) {
      }
      assert !(Changes(a, ts[0]) && Uses(b, ts[0])) && !(Changes(a, ts[1]) && Uses(b, ts[1]));
      assert !(Changes(a, ts[2]) && Uses(b, ts[2])) && !(Changes(a, ts[3]) && Uses(b, ts[3]));
    }
  }

  lemma DisjointIff(a: int, m: nat, b: int, n: nat)
    ensures Disjoint(a, m, b, n) <==> forall x :: Within(x, a, m) ==> !Within(x, b, n)
  {
    if !Disjoint(a, m, b, n) {
      assert Within(Max(a, b), a, m) && Within(Max(a, b), b, n);
    }
  }

  /** A computation leaves a waiting call alone exactly if it stores to none of the call's buffer,
      and, if the call will store there, loads none of it. */
  lemma {:induction false} SparesIff(e: Event, p: Op)
    requires e.Compute?
    ensures Spares(e, p) <==>
            (forall x :: Within(x, e.dst, e.n) ==> !Uses(p, Cell(x)))
            && (forall x :: Within(x, e.src, e.n) ==> !Changes(p, Cell(x)))
  {
    if !p.Fsync? {
      DisjointIff(e.dst, e.n, p.buf, p.n);
      DisjointIff(e.src, e.n, p.buf, p.n);
      hide Disjoint, Within;
      assert forall x :: Uses(p, Cell(x)) <==> Within(x, p.buf, p.n);
      assert forall x :: Changes(p, Cell(x)) <==> Stores(p) && Within(x, p.buf, p.n);
    }
  }

  // ---------- Quiet programs ----------

  /** The calls that are taken, in order. */
  function Accepted(events: seq<Event>): seq<Op> {
    if events == [] then []
    else (if Taken(events[0]) then [events[0].op] else []) + Accepted(events[1..])
  }

  /** Of the calls taken so far, those behind the last whole batch. */
  function Waiting(ops: seq<Op>): seq<Op> {
    ops[|ops| - |ops| % 1024..]
  }

  lemma {:induction false} WaitingNext(e: Event, ops: seq<Op>)
    ensures NextPending(e, Waiting(ops)) == Waiting(ops + Accepted([e]))
  {
    assert Accepted([e]) == if Taken(e) then [e.op] else [];
    if Taken(e) {
      var n := |ops|;
      assert |Waiting(ops)| == n % 1024;
      if n % 1024 + 1 < 1024 {
        assert (n + 1) % 1024 == n % 1024 + 1;
      } else {
        assert (n + 1) % 1024 == 0;
      }
    } else {
      assert ops + [] == ops;
    }
  }

  ghost predicate SparesRecent(e: Event, ops: seq<Op>) {
    forall k :: |ops| - |ops| % 1024 <= k < |ops| ==> Spares(e, ops[k])
  }

  lemma WaitingSpared(e: Event, ops: seq<Op>)
    ensures SparesRecent(e, ops) <==> forall k :: 0 <= k < |Waiting(ops)| ==> Spares(e, Waiting(ops)[k])
  {
    hide Spares;
    var lo := |ops| - |ops| % 1024;
    assert forall k :: lo <= k < |ops| ==> Waiting(ops)[k - lo] == ops[k];
  }

  /** Whatever runs at once leaves alone the calls that wait. */
  ghost predicate Undisturbed(events: seq<Event>, done: seq<Op>) {
    forall i :: 0 <= i < |events| && !Taken(events[i]) ==> SparesRecent(events[i], done + Accepted(events[..i]))
  }

  lemma AcceptedShift(events: seq<Event>, done: seq<Op>, i: nat)
    requires i < |events|
    ensures done + Accepted(events[..i + 1]) == (done + Accepted([events[0]])) + Accepted(events[1..][..i])
  {
    assert events[..i + 1][1..] == events[1..][..i];
    assert Accepted([events[0]]) == if Taken(events[0]) then [events[0].op] else [];
  }

  lemma {:induction false} UndisturbedStep(events: seq<Event>, done: seq<Op>)
    requires events != []
    ensures Undisturbed(events, done) <==>
            (!Taken(events[0]) ==> SparesRecent(events[0], done)) && Undisturbed(events[1..], done + Accepted([events[0]]))
  {
    hide SparesRecent, Accepted;
    var next, rest := done + Accepted([events[0]]), events[1..];
    assert events[..0] == [];
    NothingAccepted(done);
    forall i | 0 <= i < |rest| ensures done + Accepted(events[..i + 1]) == next + Accepted(rest[..i]) {
      AcceptedShift(events, done, i);
    }
    if Undisturbed(events, done) {
      forall i | 0 <= i < |rest| && !Taken(rest[i]) ensures SparesRecent(rest[i], next + Accepted(rest[..i])) {
        assert rest[i] == events[i + 1];
      }
    }
    if Undisturbed(rest, next) && (!Taken(events[0]) ==> SparesRecent(events[0], done)) {
      forall i | 0 <= i < |events| && !Taken(events[i]) ensures SparesRecent(events[i], done + Accepted(events[..i])) {
        if i > 0 {
          assert rest[i - 1] == events[i];
        }
      }
    }
  }

  lemma NothingAccepted(done: seq<Op>)
    ensures done + Accepted([]) == done
  {
  }

  lemma {:induction false} QuietFrom(events: seq<Event>, done: seq<Op>)
    ensures Quiet(events, Waiting(done)) <==> Undisturbed(events, done)
    decreases |events|
  {
    hide Waiting, Spares, Accepted, SparesRecent;
    if events != [] {
      hide Undisturbed;
      UndisturbedStep(events, done);
      WaitingSpared(events[0], done);
      WaitingNext(events[0], done);
      QuietFrom(events[1..], done + Accepted([events[0]]));
    }
  }

  /** A program is quiet exactly if every event that is not a taken call leaves alone the calls taken
      before it and behind the last whole batch of 1024. */
  lemma {:induction false} QuietIff(events: seq<Event>)
    ensures Quiet(events, []) <==>
            forall i :: 0 <= i < |events| && !Taken(events[i]) ==> SparesRecent(events[i], Accepted(events[..i]))
  {
    hide *;
    NoneWaiting();
    QuietFrom(events, []);
    FromNothing(events);
  }

  lemma NoneWaiting()
    ensures Waiting([]) == []
  {
  }

  lemma FromNothing(events: seq<Event>)
    ensures Undisturbed(events, []) <==>
            forall i :: 0 <= i < |events| && !Taken(events[i]) ==> SparesRecent(events[i], Accepted(events[..i]))
  {
    hide Accepted, SparesRecent, Taken;
    assert forall i :: 0 <= i < |events| ==> [] + Accepted(events[..i]) == Accepted(events[..i]);
  }

  // ---------- Orderly batches ----------

  lemma {:induction false} ApartInChains(batch: seq<Op>, link: seq<bool>, c: nat, d: nat, a: nat, b: nat)
    requires |batch| == |link| && c < d < |Chains(batch, link)|
    requires a < |Chains(batch, link)[c]| && b < |Chains(batch, link)[d]|
    ensures var chains := Chains(batch, link);
            var i, j := |Flatten(chains[..c])| + a, |Flatten(chains[..d])| + b;
            i < j < |batch| && !Linked(link, i, j) && batch[i] == chains[c][a] && batch[j] == chains[d][b]
  {
    hide Chains, Linked, Spans, Flatten;
    var chains := Chains(batch, link);
    InChain(chains, c, a);
    InChain(chains, d, b);
    var i, j := |Flatten(chains[..c])| + a, |Flatten(chains[..d])| + b;
    assert |Flatten(chains[..d])| >= |Flatten(chains[..c])| + |chains[c]| by { FlatPrefix(chains, c, d); }
    ChainSpan(batch, link, c);
    if Linked(link, i, j) {
      SpanEnds(link, |Flatten(chains[..c])|, |chains[c]|, i, j);
    }
  }

  lemma FlatPrefix<T>(chains: seq<seq<T>>, c: nat, d: nat)
    requires c < d <= |chains|
    ensures |Flatten(chains[..d])| >= |Flatten(chains[..c])| + |chains[c]|
  {
    FlattenSplit(chains[..d], c);
    assert chains[..d][..c] == chains[..c];
  }

  lemma {:induction false} ApartHasChains(batch: seq<Op>, link: seq<bool>, i: nat, j: nat) returns (c: nat, a: nat, d: nat, b: nat)
    requires |batch| == |link| && i < j < |batch| && !Linked(link, i, j)
    ensures var chains := Chains(batch, link);
            && c < d < |chains| && a < |chains[c]| && b < |chains[d]|
            && chains[c][a] == batch[i] && chains[d][b] == batch[j]
  {
    hide Chains, Flatten;
    var chains := Chains(batch, link);
    c, a := ChainOf(chains, i);
    d, b := ChainOf(chains, j);
    InChain(chains, c, a);
    InChain(chains, d, b);
    ChainSpan(batch, link, c);
    if d < c {
      FlatPrefix(chains, d, c);
    }
  }

  /** A batch is orderly exactly if calls with a recv between them, or the first of which is a recv,
      are independent. */
  lemma {:induction false} OrderlyIff(batch: seq<Op>)
    ensures Orderly(batch) <==>
            forall i, j :: 0 <= i < j < |batch| && (exists k :: i <= k < j && batch[k].Recv?) ==> Independent(batch[i], batch[j])
  {
    hide Chains, Independent, Flatten;
    var link := HookLinks(batch);
    var chains := Chains(batch, link);
    if Orderly(batch) {
      forall i, j | 0 <= i < j < |batch| && (exists k :: i <= k < j && batch[k].Recv?) ensures Independent(batch[i], batch[j]) {
        var c, a, d, b := ApartHasChains(batch, link, i, j);
        assert AllIndependent(chains[c], chains[d]);
      }
    }
    if forall i, j :: 0 <= i < j < |batch| && (exists k :: i <= k < j && batch[k].Recv?) ==> Independent(batch[i], batch[j]) {
      forall c, d, a, b | 0 <= c < d < |chains| && 0 <= a < |chains[c]| && 0 <= b < |chains[d]|
        ensures Independent(chains[c][a], chains[d][b])
      {
        ApartInChains(batch, link, c, d, a, b);
      }
    }
  }

  /** Batch `q` of the calls taken. */
  function Batch(ops: seq<Op>, q: nat): seq<Op>
    requires 1024 * q <= |ops|
  {
    ops[1024 * q..Min(1024 * q + 1024, |ops|)]
  }

  ghost predicate OrderlyFrom(ops: seq<Op>, from: nat) {
    forall q :: from <= q <= |ops| / 1024 ==> Orderly(Batch(ops, q))
  }

  lemma LastBatch(ops: seq<Op>)
    ensures Batch(ops, |ops| / 1024) == Waiting(ops)
  {
  }

  lemma {:induction false} FullBatch(done: seq<Op>, op: Op, rest: seq<Op>)
    requires |Waiting(done)| == 1023
    ensures var q := |done| / 1024;
            && (|done| + 1) / 1024 == q + 1 && q < |done + [op] + rest| / 1024
            && Batch(done + [op] + rest, q) == Waiting(done) + [op] && Waiting(done + [op]) == []
  {
  }

  lemma {:induction false} NextBatch(e: Event, done: seq<Op>, rest: seq<Op>)
    ensures var next := done + Accepted([e]);
            && (Taken(e) && |Waiting(done)| + 1 >= 1024 ==>
                  (OrderlyFrom(next + rest, |done| / 1024) <==>
                     Orderly(Waiting(done) + [e.op]) && OrderlyFrom(next + rest, |next| / 1024)))
            && (!(Taken(e) && |Waiting(done)| + 1 >= 1024) ==> |next| / 1024 == |done| / 1024)
  {
    hide Batch, Orderly;
    assert Accepted([e]) == if Taken(e) then [e.op] else [];
    assert |Waiting(done)| == |done| % 1024;
    if Taken(e) && |Waiting(done)| + 1 >= 1024 {
      FullBatch(done, e.op, rest);
    }
  }

  lemma {:induction false} OrderlyBatchesFrom(events: seq<Event>, done: seq<Op>)
    ensures OrderlyBatches(events, Waiting(done)) <==> OrderlyFrom(done + Accepted(events), |done| / 1024)
    decreases |events|
  {
    hide Batch, Orderly, Waiting;
    var all := done + Accepted(events);
    if events == [] {
      assert all == done;
      LastBatch(done);
    } else {
      var e, next := events[0], done + Accepted([events[0]]);
      AcceptedShift(events, done, |events| - 1);
      assert events[..|events|] == events && events[1..][..|events| - 1] == events[1..];
      assert all == next + Accepted(events[1..]);
      WaitingNext(e, done);
      OrderlyBatchesFrom(events[1..], next);
      NextBatch(e, done, Accepted(events[1..]));
    }
  }

  /** A program's batches are orderly exactly if each 1024 calls taken one after another, and the rest
      behind them, are an orderly batch. */
  lemma {:induction false} OrderlyBatchesIff(events: seq<Event>)
    ensures OrderlyBatches(events, []) <==>
            forall q :: 0 <= q <= |Accepted(events)| / 1024 ==> Orderly(Batch(Accepted(events), q))
  {
    hide *;
    NoneWaiting();
    OrderlyBatchesFrom(events, []);
    assert [] + Accepted(events) == Accepted(events);
    FromFirst(Accepted(events));
  }

  lemma FromFirst(ops: seq<Op>)
    ensures OrderlyFrom(ops, 0) <==> forall q :: 0 <= q <= |ops| / 1024 ==> Orderly(Batch(ops, q))
  {
    hide Orderly, Batch;
  }
}
