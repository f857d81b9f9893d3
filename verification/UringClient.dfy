/** The batched file client: read and send in batches, then receive and write one at a time
    (iouring_hotpatch/uring_client.c). */
module UringClient {
  import opened World
  import opened Uring
  import opened UnlinkedBatches
  import opened Tiling
  import opened Deferral

  const BATCH := 256
  const QUEUE_DEPTH := 512

  // ---------- What the send phase asks for ----------

  /** A read of each tile, followed by a send of as many bytes from the same buffer. */
  function Requests(tiles: seq<Tile>, fileFd: int, sock: int, buf: int): seq<Op> {
    if tiles == [] then []
    else
      [Read(fileFd, buf, tiles[0].len, tiles[0].off), Send(sock, buf, tiles[0].len)]
      + Requests(tiles[1..], fileFd, sock, buf)
  }

  lemma {:induction false} RequestsAlternate(tiles: seq<Tile>, fileFd: int, sock: int, buf: int)
    ensures var r := Requests(tiles, fileFd, sock, buf);
            && |r| == 2 * |tiles|
            && forall i :: 0 <= i < |tiles| ==>
                 && r[2 * i] == Read(fileFd, buf, tiles[i].len, tiles[i].off)
                 && r[2 * i + 1] == Send(sock, buf, tiles[i].len)
  {
    if tiles != [] {
      RequestsAlternate(tiles[1..], fileFd, sock, buf);
      var r, rest := Requests(tiles, fileFd, sock, buf), Requests(tiles[1..], fileFd, sock, buf);
      forall i | 0 <= i < |tiles|
        ensures r[2 * i] == Read(fileFd, buf, tiles[i].len, tiles[i].off)
        ensures r[2 * i + 1] == Send(sock, buf, tiles[i].len)
      {
        if i > 0 {
          assert r[2 * i] == rest[2 * (i - 1)] && r[2 * i + 1] == rest[2 * (i - 1) + 1];
          assert tiles[i] == tiles[1..][i - 1];
        }
      }
    }
  }

  ghost predicate Ready(w: World, fileFd: int, sock: int, buf: int) {
    fileFd in w.files && sock in w.outbox && 0 <= buf && buf + CHUNK <= |w.mem|
  }

  /** Run in queue order, one tile's read and send append that tile of the file. */
  lemma PairDelivers(w: World, fileFd: int, sock: int, buf: int, off: nat, len: nat)
    requires Ready(w, fileFd, sock, buf) && len <= CHUNK && off + len <= |w.files[fileFd]|
    ensures var w' := Do(Send(sock, buf, len), Do(Read(fileFd, buf, len, off), w));
            && Ready(w', fileFd, sock, buf) && w'.files == w.files
            && w'.outbox[sock] == w.outbox[sock] + w.files[fileFd][off..off + len]
  {
    var v := Do(Read(fileFd, buf, len, off), w);
    assert v.mem[buf..buf + len] == w.files[fileFd][off..off + len];
  }

  /** Run in queue order, the requests send exactly the file. */
  lemma {:induction false} InOrderDelivers(w: World, fileFd: int, sock: int, buf: int, off: nat)
    requires Ready(w, fileFd, sock, buf) && off <= |w.files[fileFd]|
    ensures var size := |w.files[fileFd]|;
            var w' := DoAll(Requests(Tiles(size, off), fileFd, sock, buf), w);
            sock in w'.outbox && w'.outbox[sock] == w.outbox[sock] + w.files[fileFd][off..]
    decreases |w.files[fileFd]| - off
  {
    hide Do;
    var file := w.files[fileFd];
    if off < |file| {
      var len := ChunkAt(|file|, off);
      var read, send := Read(fileFd, buf, len, off), Send(sock, buf, len);
      var v := Do(send, Do(read, w));
      PairDelivers(w, fileFd, sock, buf, off, len);
      InOrderDelivers(v, fileFd, sock, buf, off + len);
      var rest := Requests(Tiles(|file|, off + len), fileFd, sock, buf);
      assert Tiles(|file|, off)[1..] == Tiles(|file|, off + len);
      DoAllAppend([read, send], rest, w);
      assert [read, send][1..] == [send];
      assert file[off..] == file[off..off + len] + file[off + len..];
    } else {
      assert w.outbox[sock] + file[off..] == w.outbox[sock];
    }
  }

  // ---------- What the kernel may make of it ----------

  /** The batches run one after another, each by some schedule of the kernel, and every request
      completes in full. */
  ghost predicate Outcome(batches: seq<seq<Op>>, w: World, w': World)
    decreases |batches|
  {
    if batches == [] then w' == w
    else exists v, posted :: OutcomeVia(batches, w, v, posted, w')
  }

  ghost predicate OutcomeVia(batches: seq<seq<Op>>, w: World, v: World, posted: seq<Cqe>, w': World)
    requires batches != []
    decreases |batches|, 0
  {
    var last := |batches| - 1;
    Outcome(batches[..last], w, v) && BatchRun(batches[last], v, posted, w')
  }

  ghost predicate BatchRun(batch: seq<Op>, v: World, posted: seq<Cqe>, w': World) {
    ByRun(Submit(Queue(QUEUE_DEPTH, batch, v)), posted, w') && AllFull(posted)
  }

  /** The worlds a sequence of batches went through, and the completions of each batch. */
  ghost predicate Went(batches: seq<seq<Op>>, worlds: seq<World>, posted: seq<seq<Cqe>>) {
    && |worlds| == |batches| + 1 && |posted| == |batches|
    && forall i :: 0 <= i < |batches| ==>
         && AllFull(posted[i])
         && ByRun(Submit(Ring(512, Unlinked(batches[i]), [], [], worlds[i])), posted[i], worlds[i + 1])
  }

  /** A run of all batches, said batch by batch. */
  lemma {:induction false} OutcomeIff(batches: seq<seq<Op>>, w: World, w': World)
    ensures Outcome(batches, w, w') <==>
            exists worlds, posted ::
              Went(batches, worlds, posted) && worlds[0] == w && worlds[|batches|] == w'
    decreases |batches|
  {
    if Outcome(batches, w, w') {
      var worlds, posted := OutcomeWent(batches, w, w');
    }
    if exists worlds, posted :: Went(batches, worlds, posted) && worlds[0] == w && worlds[|batches|] == w' {
      var worlds, posted :| Went(batches, worlds, posted) && worlds[0] == w && worlds[|batches|] == w';
      WentOutcome(batches, worlds, posted);
    }
  }

  lemma {:induction false} OutcomeWent(batches: seq<seq<Op>>, w: World, w': World)
    returns (worlds: seq<World>, posted: seq<seq<Cqe>>)
    requires Outcome(batches, w, w')
    ensures Went(batches, worlds, posted) && worlds[0] == w && worlds[|batches|] == w'
    decreases |batches|
  {
    hide ByRun, AllFull;
    if batches == [] {
      worlds, posted := [w], [];
    } else {
      var last := |batches| - 1;
      var v, more :| OutcomeVia(batches, w, v, more, w');
      var before, taken := OutcomeWent(batches[..last], w, v);
      worlds, posted := before + [w'], taken + [more];
      WentMore(batches[..last], before, taken, batches[last], more, w');
      assert batches[..last] + [batches[last]] == batches;
    }
  }

  lemma WentMore(batches: seq<seq<Op>>, worlds: seq<World>, posted: seq<seq<Cqe>>, batch: seq<Op>, more: seq<Cqe>, w': World)
    requires Went(batches, worlds, posted) && BatchRun(batch, worlds[|batches|], more, w')
    ensures Went(batches + [batch], worlds + [w'], posted + [more])
  {
    hide ByRun, AllFull;
  }

  lemma WentLess(batches: seq<seq<Op>>, worlds: seq<World>, posted: seq<seq<Cqe>>)
    requires Went(batches, worlds, posted) && batches != []
    ensures var last := |batches| - 1;
            && Went(batches[..last], worlds[..|batches|], posted[..last])
            && BatchRun(batches[last], worlds[last], posted[last], worlds[|batches|])
  {
    hide ByRun, AllFull;
  }

  lemma {:induction false} WentOutcome(batches: seq<seq<Op>>, worlds: seq<World>, posted: seq<seq<Cqe>>)
    requires Went(batches, worlds, posted)
    ensures Outcome(batches, worlds[0], worlds[|batches|])
    decreases |batches|
  {
    hide ByRun, AllFull;
    if batches != [] {
      var last := |batches| - 1;
      WentLess(batches, worlds, posted);
      WentOutcome(batches[..last], worlds[..|batches|], posted[..last]);
      assert OutcomeVia(batches, worlds[0], worlds[last], posted[last], worlds[|batches|]);
    }
  }

  lemma OutcomeExtends(batches: seq<seq<Op>>, w: World, v: World, batch: seq<Op>, posted: seq<Cqe>, w': World)
    requires Outcome(batches, w, v) && BatchRun(batch, v, posted, w')
    ensures Outcome(batches + [batch], w, w')
  {
    hide BatchRun;
    var all := batches + [batch];
    assert all[..|all| - 1] == batches;
    assert OutcomeVia(all, w, v, posted, w');
  }

  method FlushBatch(r: Ring, count: nat) returns (r': Ring, ghost posted: seq<Cqe>)
    requires r.flying == [] && r.cq == [] && |r.sq| == count
    ensures r' == NewRing(r.depth, r'.world)
    ensures multiset(Ops(posted)) == multiset(Queued(r.sq)) && r'.world == Replay(posted, r.world)
    ensures ByRun(Submit(r), posted, r'.world)
  {
    r', posted := SubmitAndPeek(r, count);
    MergeKeepsAll(Submit(r).flying, Ops(posted));
    assert Submit(r).flying == Chains(Queued(r.sq), Links(r.sq));
  }

  /** `posted` are the completions of the batches run so far, which led from `w` to `v`. */
  ghost predicate Accounted(batches: seq<seq<Op>>, posted: seq<Cqe>, w: World, v: World) {
    && multiset(Ops(posted)) == multiset(Flatten(batches))
    && v == Replay(posted, w)
    && (AllFull(posted) ==> Outcome(batches, w, v))
  }

  lemma BatchDone(batches: seq<seq<Op>>, posted: seq<Cqe>, batch: seq<Op>, more: seq<Cqe>, w: World, v: World, w': World)
    requires Accounted(batches, posted, w, v)
    requires multiset(Ops(more)) == multiset(batch) && w' == Replay(more, v)
    requires ByRun(Submit(Queue(QUEUE_DEPTH, batch, v)), more, w')
    ensures Flatten(batches + [batch]) == Flatten(batches) + batch
    ensures Accounted(batches + [batch], posted + more, w, w')
  {
    hide Outcome, ByRun, Replay, Submit, Queue;
    FlattenAppend(batches, [batch]);
    ReplayAppend(posted, more, w);
    assert Flatten([batch]) == batch;
    assert Ops(posted + more) == Ops(posted) + Ops(more);
    AllFullAppend(posted, more);
    if AllFull(posted + more) {
      OutcomeExtends(batches, w, v, batch, more, w');
    }
  }

  function Pair(fileFd: int, sock: int, buf: int, off: nat, len: nat): (r: seq<Op>)
    ensures |r| == 2
  {
    [Read(fileFd, buf, len, off), Send(sock, buf, len)]
  }

  lemma NextPair(size: nat, fileFd: int, sock: int, buf: int, off: nat)
    requires off < size
    ensures var len := ChunkAt(size, off);
            Requests(Tiles(size, off), fileFd, sock, buf)
            == Pair(fileFd, sock, buf, off, len) + Requests(Tiles(size, off + len), fileFd, sock, buf)
  {
    assert Tiles(size, off)[1..] == Tiles(size, off + ChunkAt(size, off));
  }

  lemma UnlinkedAppend(ops: seq<Op>, op: Op)
    ensures Unlinked(ops) + [Sqe(op, false)] == Unlinked(ops + [op])
  {
  }

  /** Queue a read and a send of the same length; neither finds the queue full. */
  method QueuePair(r: Ring, ghost queue: seq<Op>, fileFd: int, sock: int, buf: int, off: nat, len: nat) returns (r': Ring)
    requires r.sq == Unlinked(queue) && |queue| + 2 <= r.depth
    ensures r' == r.(sq := Unlinked(queue + Pair(fileFd, sock, buf, off, len)))
  {
    assert HasRoom(r);
    r' := Enqueue(r, Read(fileFd, buf, len, off));
    UnlinkedAppend(queue, Read(fileFd, buf, len, off));
    assert HasRoom(r');
    r' := Enqueue(r', Send(sock, buf, len));
    UnlinkedAppend(queue + [Read(fileFd, buf, len, off)], Send(sock, buf, len));
    assert queue + Pair(fileFd, sock, buf, off, len) == queue + [Read(fileFd, buf, len, off)] + [Send(sock, buf, len)];
  }

  lemma Regroup<T>(a: seq<T>, b: seq<T>, c: seq<T>, d: seq<T>)
    ensures a + b + (c + d) == a + (b + c) + d
  {
  }

  lemma NothingAccounted(w: World)
    ensures Accounted([], [], w, w) && Flatten<Op>([]) == []
  {
  }

  lemma NoRequests(size: nat, fileFd: int, sock: int, buf: int)
    ensures Requests(Tiles(size, size), fileFd, sock, buf) == []
  {
  }

  /** The send phase.  Its requests are the tiles of the file, cut into batches; the queue never
      runs full, and every peek finds a completion. */
  method SendPhase(r: Ring, fileFd: int, sock: int, buf: int, size: nat)
    returns (r': Ring, ghost batches: seq<seq<Op>>, ghost posted: seq<Cqe>)
    requires Idle(r) && r.depth == QUEUE_DEPTH
    ensures r' == NewRing(QUEUE_DEPTH, r'.world)
    ensures CutInto(batches, Requests(Tiles(size, 0), fileFd, sock, buf), BATCH)
    ensures Accounted(batches, posted, r.world, r'.world)
  {
    hide Accounted, Requests, Tiles, Pair, Flatten, Unlinked, ByRun, Submit;
    ghost var all := Requests(Tiles(size, 0), fileFd, sock, buf);
    ghost var queue: seq<Op> := [];
    batches, posted := [], [];
    r' := r;
    NothingAccounted(r.world);
    var fileOffset, batchCount := 0, 0;
    while fileOffset < size
      invariant fileOffset <= size
      invariant all == Flatten(batches) + queue + Requests(Tiles(size, fileOffset), fileFd, sock, buf)
      invariant |queue| == batchCount < BATCH && batchCount % 2 == 0
      invariant r'.flying == [] && r'.cq == [] && r'.depth == QUEUE_DEPTH && r'.sq == Unlinked(queue)
      invariant forall i :: 0 <= i < |batches| ==> |batches[i]| == BATCH
      invariant Accounted(batches, posted, r.world, r'.world)
      decreases size - fileOffset
    {
      var bytesToRead := CHUNK;
      if fileOffset + CHUNK > size {
        bytesToRead := size - fileOffset;
      }
      NextPair(size, fileFd, sock, buf, fileOffset);
      ghost var pair := Pair(fileFd, sock, buf, fileOffset, bytesToRead);
      r' := QueuePair(r', queue, fileFd, sock, buf, fileOffset, bytesToRead);
      batchCount := batchCount + 2;
      fileOffset := fileOffset + bytesToRead;
      Regroup(Flatten(batches), queue, pair, Requests(Tiles(size, fileOffset), fileFd, sock, buf));
      queue := queue + pair;
      if batchCount >= BATCH {
        ghost var more, v := [], r'.world;
        r', more := FlushBatch(r', batchCount);
        BatchDone(batches, posted, queue, more, r.world, v, r'.world);
        batches, posted, queue := batches + [queue], posted + more, [];
        batchCount := 0;
        assert Flatten(batches) + queue == Flatten(batches);
      }
    }
    NoRequests(size, fileFd, sock, buf);
    if batchCount > 0 {
      ghost var more, v := [], r'.world;
      r', more := FlushBatch(r', batchCount);
      BatchDone(batches, posted, queue, more, r.world, v, r'.world);
      batches, posted := batches + [queue], posted + more;
    }
  }

  // ---------- When the file arrives ----------

  /** Whatever the kernel does with the batches, the file is sent. */
  ghost predicate AlwaysDelivers(batches: seq<seq<Op>>, size: nat, fileFd: int, sock: int, buf: int) {
    forall w, w' {:trigger Outcome(batches, w, w')} ::
      Ready(w, fileFd, sock, buf) && |w.files[fileFd]| == size && Outcome(batches, w, w') ==>
        sock in w'.outbox && w'.outbox[sock] == w.outbox[sock] + w.files[fileFd]
  }

  lemma OnlyAppends(ops: seq<Op>, w: World, sock: int)
    requires sock in w.outbox
    ensures sock in DoAll(ops, w).outbox && w.outbox[sock] <= DoAll(ops, w).outbox[sock]
  {
    if ops != [] {
      OnlyAppends(ops[1..], Do(ops[0], w), sock);
    }
  }

  /** A request of the send phase. */
  predicate Asked(op: Op, size: nat, fileFd: int, sock: int, buf: int) {
    || (op.Read? && op.fd == fileFd && op.buf == buf && op.n <= CHUNK && 0 <= op.off && op.off + op.n <= size)
    || (op.Send? && op.fd == sock && op.buf == buf && op.n <= CHUNK)
  }

  ghost predicate AllAsked(ops: seq<Op>, size: nat, fileFd: int, sock: int, buf: int) {
    forall i :: 0 <= i < |ops| ==> Asked(ops[i], size, fileFd, sock, buf)
  }

  lemma RequestsAsked(size: nat, fileFd: int, sock: int, buf: int)
    ensures AllAsked(Requests(Tiles(size, 0), fileFd, sock, buf), size, fileFd, sock, buf)
  {
    hide Requests, Tiles;
    var tiles := Tiles(size, 0);
    var ops := Requests(tiles, fileFd, sock, buf);
    RequestsAlternate(tiles, fileFd, sock, buf);
    TilesClosedForm(size);
    forall i | 0 <= i < |ops| ensures Asked(ops[i], size, fileFd, sock, buf) {
      var k := i / 2;
      assert i == 2 * k || i == 2 * k + 1;
      assert ops[2 * k] == Read(fileFd, buf, tiles[k].len, tiles[k].off);
      assert ops[2 * k + 1] == Send(sock, buf, tiles[k].len);
      assert (k + 1) * CHUNK == k * CHUNK + CHUNK;
      assert tiles[k].len <= CHUNK && tiles[k].off + tiles[k].len <= size;
    }
  }

  lemma BatchesAsked(batches: seq<seq<Op>>, size: nat, fileFd: int, sock: int, buf: int)
    requires AllAsked(Flatten(batches), size, fileFd, sock, buf)
    ensures forall i :: 0 <= i < |batches| ==> AllAsked(batches[i], size, fileFd, sock, buf)
  {
    hide Asked;
    forall i | 0 <= i < |batches| ensures AllAsked(batches[i], size, fileFd, sock, buf) {
      FlattenSplit(batches, i);
      forall k | 0 <= k < |batches[i]| ensures Asked(batches[i][k], size, fileFd, sock, buf) {
        assert batches[i][k] == Flatten(batches)[|Flatten(batches[..i])| + k];
      }
    }
  }

  /** Plainly run, such requests complete in full, and only append to the socket's stream. */
  lemma {:induction false} PlainIsFull(ops: seq<Op>, w: World, fileFd: int, sock: int, buf: int)
    requires Ready(w, fileFd, sock, buf) && AllAsked(ops, |w.files[fileFd]|, fileFd, sock, buf)
    ensures AllFull(Plain(ops, w)) && Ready(DoAll(ops, w), fileFd, sock, buf)
    ensures DoAll(ops, w).files == w.files && w.outbox[sock] <= DoAll(ops, w).outbox[sock]
  {
    if ops != [] {
      var v, head := Do(ops[0], w), [Cqe(ops[0], Best(ops[0], w))];
      PlainIsFull(ops[1..], v, fileFd, sock, buf);
      AllFullAppend(head, Plain(ops[1..], v));
    }
  }

  lemma {:induction false} RestInOrder(batches: seq<seq<Op>>, k: nat, w: World, v: World, fileFd: int, sock: int, buf: int)
    returns (w': World)
    requires k <= |batches| && Outcome(batches[..k], w, v) && Ready(v, fileFd, sock, buf)
    requires forall i :: 0 <= i < |batches| ==> AllAsked(batches[i], |v.files[fileFd]|, fileFd, sock, buf)
    ensures Outcome(batches, w, w') && sock in w'.outbox && v.outbox[sock] <= w'.outbox[sock]
    ensures w' == DoAll(Flatten(batches[k..]), v)
    decreases |batches| - k
  {
    hide Outcome, AllAsked, DoAll, Plain, Do, Best, Takes;
    if k == |batches| {
      assert batches[..k] == batches && Flatten(batches[k..]) == [];
      DoAllNothing(v);
      w' := v;
    } else {
      var u := DoAll(batches[k], v);
      PlainIsFull(batches[k], v, fileFd, sock, buf);
      OrderReached(QUEUE_DEPTH, batches[k], batches[k], v);
      OutcomeExtends(batches[..k], w, v, batches[k], Plain(batches[k], v), u);
      assert batches[..k] + [batches[k]] == batches[..k + 1];
      w' := RestInOrder(batches, k + 1, w, u, fileFd, sock, buf);
      assert batches[k..][0] == batches[k] && batches[k..][1..] == batches[k + 1..];
      DoAllAppend(batches[k], Flatten(batches[k + 1..]), v);
    }
  }

  /** The kindest schedule sends exactly the file. */
  lemma SomeScheduleDelivers(batches: seq<seq<Op>>, w: World, fileFd: int, sock: int, buf: int) returns (w': World)
    requires Ready(w, fileFd, sock, buf)
    requires CutInto(batches, Requests(Tiles(|w.files[fileFd]|, 0), fileFd, sock, buf), BATCH)
    ensures Outcome(batches, w, w') && sock in w'.outbox && w'.outbox[sock] == w.outbox[sock] + w.files[fileFd]
  {
    hide DoAll, Requests, Tiles, Flatten;
    RequestsAsked(|w.files[fileFd]|, fileFd, sock, buf);
    BatchesAsked(batches, |w.files[fileFd]|, fileFd, sock, buf);
    assert batches[..0] == [] && batches[0..] == batches;
    w' := RestInOrder(batches, 0, w, w, fileFd, sock, buf);
    InOrderDelivers(w, fileFd, sock, buf, 0);
    assert w.files[fileFd][0..] == w.files[fileFd];
  }

  lemma FirstBatchStarts(batches: seq<seq<Op>>, size: nat, fileFd: int, sock: int, buf: int)
    requires size > 0 && CutInto(batches, Requests(Tiles(size, 0), fileFd, sock, buf), BATCH)
    ensures batches != [] && |batches[0]| >= 2
    ensures batches[0][..2] == Pair(fileFd, sock, buf, 0, ChunkAt(size, 0))
  {
    var all := Requests(Tiles(size, 0), fileFd, sock, buf);
    NextPair(size, fileFd, sock, buf, 0);
    assert |all| >= 2;
    if |batches| == 1 {
      assert Flatten(batches) == batches[0];
    }
    assert all[..2] == batches[0][..2];
  }

  /** A send that overtakes its read sends the old contents of the buffer. */
  lemma StaleSend(size: nat, fileFd: int, sock: int, buf: nat, order: seq<Op>) returns (w: World)
    requires size > 0 && order != [] && order[0] == Send(sock, buf, ChunkAt(size, 0))
    ensures Ready(w, fileFd, sock, buf) && |w.files[fileFd]| == size
    ensures w.outbox[sock] == [] && w.files[fileFd][0] == 0
    ensures sock in DoAll(order, w).outbox && DoAll(order, w).outbox[sock] != []
    ensures DoAll(order, w).outbox[sock][0] == 1
  {
    var ones := seq(buf + CHUNK, _ => 1);
    w := World(ones, map[fileFd := Zeros(size)], map[sock := []], map[]);
    var v := Do(order[0], w);
    assert v.outbox[sock] == [] + ones[buf..buf + ChunkAt(size, 0)];
    OnlyAppends(order[1..], v, sock);
  }

  /** The client can rely on the kernel for the empty file only: unlinked and with one buffer, all
      other files meet a schedule that completes everything in full and sends something else. */
  lemma AlwaysDeliversIff(batches: seq<seq<Op>>, size: nat, fileFd: int, sock: int, buf: nat)
    requires CutInto(batches, Requests(Tiles(size, 0), fileFd, sock, buf), BATCH)
    ensures AlwaysDelivers(batches, size, fileFd, sock, buf) <==> size == 0
  {
    if size == 0 {
      assert Requests(Tiles(0, 0), fileFd, sock, buf) == [];
      FlattenNonEmpty(batches);
    } else {
      var w, w' := DeliveryFails(batches, size, fileFd, sock, buf);
      assert (w.outbox[sock] + w.files[fileFd])[0] == 0;
    }
  }

  lemma DeliveryFails(batches: seq<seq<Op>>, size: nat, fileFd: int, sock: int, buf: nat) returns (w: World, w': World)
    requires size > 0 && CutInto(batches, Requests(Tiles(size, 0), fileFd, sock, buf), BATCH)
    ensures Ready(w, fileFd, sock, buf) && |w.files[fileFd]| == size && Outcome(batches, w, w')
    ensures w.outbox[sock] == [] && w.files[fileFd][0] == 0
    ensures sock in w'.outbox && w'.outbox[sock] != [] && w'.outbox[sock][0] == 1
  {
    hide Requests, Tiles, Outcome, BatchRun, ByRun, Submit, Queue, Flatten, DoAll, Plain;
    FirstBatchStarts(batches, size, fileFd, sock, buf);
    RequestsAsked(size, fileFd, sock, buf);
    BatchesAsked(batches, size, fileFd, sock, buf);
    var first := batches[0];
    var order := SendFirst(first);
    assert first[1] == first[..2][1];
    w := StaleSend(size, fileFd, sock, buf, order);
    forall i | 0 <= i < |order| ensures Asked(order[i], size, fileFd, sock, buf) {
      assert order[i] == first[if i < 2 then 1 - i else i];
    }
    PlainIsFull(order, w, fileFd, sock, buf);
    OrderReached(QUEUE_DEPTH, first, order, w);
    FirstOutcome(first, w, Plain(order, w), DoAll(order, w));
    assert [first] == batches[..1];
    w' := RestInOrder(batches, 1, w, DoAll(order, w), fileFd, sock, buf);
    assert w'.outbox[sock][0] == DoAll(order, w).outbox[sock][0];
  }

  lemma FirstOutcome(first: seq<Op>, w: World, posted: seq<Cqe>, v: World)
    requires ByRun(Submit(Queue(QUEUE_DEPTH, first, w)), posted, v) && AllFull(posted)
    ensures Outcome([first], w, v)
  {
    OutcomeExtends([], w, w, first, posted, v);
    assert [] + [first] == [first];
  }

  /** The second request goes first. */
  function SendFirst(batch: seq<Op>): (order: seq<Op>)
    requires |batch| >= 2
    ensures |order| == |batch| && multiset(order) == multiset(batch)
    ensures forall i :: 0 <= i < |batch| ==> order[i] == batch[if i < 2 then 1 - i else i]
  {
    assert batch == [batch[0], batch[1]] + batch[2..];
    [batch[1], batch[0]] + batch[2..]
  }

  function Calls(ops: seq<HookOp>): (r: seq<Event>)
    ensures |r| == |ops| && forall i :: 0 <= i < |ops| ==> r[i] == Call(0, ops[i], false)
  {
    seq(|ops|, i requires 0 <= i < |ops| => Call(0, ops[i], false))
  }

  lemma CallsAreQuiet(events: seq<Event>, pending: seq<Op>)
    requires forall i :: 0 <= i < |events| ==> Taken(events[i])
    ensures Quiet(events, pending)
    decreases |events|
  {
    if events != [] {
      CallsAreQuiet(events[1..], NextPending(events[0], pending));
    }
  }

  lemma ImmediateCalls(ops: seq<HookOp>, w: World)
    ensures Immediate(Calls(ops), w) == DoAll(ops, w)
  {
    if ops != [] {
      assert Calls(ops)[1..] == Calls(ops[1..]);
      ImmediateCalls(ops[1..], Do(ops[0], w));
    }
  }

  function HookRequests(tiles: seq<Tile>, fileFd: int, sock: int, buf: int): (r: seq<HookOp>)
    ensures r == Requests(tiles, fileFd, sock, buf)
  {
    if tiles == [] then []
    else
      [Read(fileFd, buf, tiles[0].len, tiles[0].off), Send(sock, buf, tiles[0].len)]
      + HookRequests(tiles[1..], fileFd, sock, buf)
  }

  /** The same copy made of plain pread and send calls under the batching hooks, which link
      them, sends exactly the file although one buffer serves all calls. */
  lemma HookedCopyDelivers(w: World, fileFd: int, sock: int, buf: int)
    requires Ready(w, fileFd, sock, buf) && fileFd >= 3 && sock >= 3
    ensures var events := Calls(HookRequests(Tiles(|w.files[fileFd]|, 0), fileFd, sock, buf));
            && Quiet(events, []) && OrderlyBatches(events, [])
            && var w' := Deferred(events, [], w);
               sock in w'.outbox && w'.outbox[sock] == w.outbox[sock] + w.files[fileFd]
  {
    hide Do, DoAll, Requests, Tiles, Quiet, OrderlyBatches, Deferred;
    var size := |w.files[fileFd]|;
    var ops := HookRequests(Tiles(size, 0), fileFd, sock, buf);
    var events := Calls(ops);
    RequestsAlternate(Tiles(size, 0), fileFd, sock, buf);
    forall i | 0 <= i < |ops| ensures Taken(events[i]) && !ops[i].Recv? {
      var k := i / 2;
      assert i == 2 * k || i == 2 * k + 1;
      assert ops[2 * k].Read? && ops[2 * k + 1].Send?;
    }
    CallsAreQuiet(events, []);
    WithoutRecvOrderlyBatches(events, []);
    DeferralPreservesMeaning(events, [], w);
    assert DoAll([], w) == w by { DoAllNothing(w); }
    ImmediateCalls(ops, w);
    InOrderDelivers(w, fileFd, sock, buf, 0);
    assert w.files[fileFd][0..] == w.files[fileFd];
  }

  lemma DoAllNothing(w: World)
    ensures DoAll([], w) == w
  {
  }

  // ---------- The receive phase ----------

  function Stream(w: World, sock: int): seq<Byte> {
    if sock in w.inbox then w.inbox[sock] else []
  }

  function File(w: World, fd: int): seq<Byte> {
    if fd in w.files then w.files[fd] else []
  }

  /** `len` bytes received at stream position `off`, and the result of writing them. */
  datatype Chunk = Chunk(off: nat, len: nat, res: int)

  ghost predicate Agrees(c: Chunk, file: seq<Byte>, stream: seq<Byte>) {
    c.res > 0 ==>
      && c.off + c.res <= |file| && c.off + c.res <= |stream|
      && forall p :: c.off <= p < c.off + c.res ==> file[p] == stream[p]
  }

  /** The chunks follow one another from 0 to `received`. */
  predicate Contiguous(chunks: seq<Chunk>, received: nat) {
    if chunks == [] then received == 0
    else
      var last := chunks[|chunks| - 1];
      0 < last.len && last.off + last.len == received && Contiguous(chunks[..|chunks| - 1], last.off)
  }

  ghost predicate AllWritten(chunks: seq<Chunk>) {
    forall i :: 0 <= i < |chunks| ==> chunks[i].res == chunks[i].len
  }

  /** After `received` bytes of the stream: wherever a write succeeded the file agrees with the
      stream, and it is the prefix of the stream if all writes were full. */
  ghost predicate Saved(file: seq<Byte>, stream: seq<Byte>, received: nat, chunks: seq<Chunk>) {
    && |file| <= received <= |stream| && Contiguous(chunks, received)
    && (forall i :: 0 <= i < |chunks| ==> Agrees(chunks[i], file, stream))
    && (AllWritten(chunks) ==> file == stream[..received])
  }

  /** The completions of the calls that received and wrote the chunks. */
  function Served(chunks: seq<Chunk>, sock: int, recvFd: int, buf: int): seq<Cqe> {
    if chunks == [] then []
    else
      var n := |chunks| - 1;
      Served(chunks[..n], sock, recvFd, buf)
      + [Cqe(Recv(sock, buf, CHUNK), chunks[n].len), Cqe(Write(recvFd, buf, chunks[n].len, chunks[n].off), chunks[n].res)]
  }

  lemma ServedMore(chunks: seq<Chunk>, c: Chunk, sock: int, recvFd: int, buf: int, w: World)
    ensures var before := Replay(Served(chunks, sock, recvFd, buf), w);
            Replay(Served(chunks + [c], sock, recvFd, buf), w)
            == Transfer(Write(recvFd, buf, c.len, c.off), c.res, Transfer(Recv(sock, buf, CHUNK), c.len, before))
  {
    hide Transfer;
    assert (chunks + [c])[..|chunks|] == chunks;
    ReplayTwo(Served(chunks, sock, recvFd, buf), Cqe(Recv(sock, buf, CHUNK), c.len),
              Cqe(Write(recvFd, buf, c.len, c.off), c.res), w);
  }

  lemma ServedLast(done: seq<Cqe>, last: Cqe, w: World)
    requires last.res <= 0
    ensures Replay(done + [last], w) == Replay(done, w)
  {
    ReplayAppend(done, [last], w);
    assert [last][1..] == [];
  }

  lemma RecvTakes(w: World, sock: int, fd: int, buf: int, f: Fault)
    ensures var op := Recv(sock, buf, CHUNK);
            var k := Result(op, f, w);
            var w' := Transfer(op, k, w);
            && File(w', fd) == File(w, fd) && |w'.mem| == |w.mem|
            && (k > 0 ==>
                  && k <= |Stream(w, sock)| && 0 <= buf && buf + k <= |w'.mem|
                  && w'.mem[buf..buf + k] == Stream(w, sock)[..k]
                  && Stream(w', sock) == Stream(w, sock)[k..])
            && (k == 0 ==> Stream(w, sock) == [])
            && (k <= 0 ==> w' == w)
  {
  }

  lemma WriteStores(w: World, sock: int, fd: int, buf: nat, n: nat, off: nat, f: Fault)
    requires buf + n <= |w.mem| && |File(w, fd)| <= off
    ensures var op := Write(fd, buf, n, off);
            var m := Result(op, f, w);
            var w' := Transfer(op, m, w);
            && m <= n && Stream(w', sock) == Stream(w, sock)
            && (m <= 0 ==> File(w', fd) == File(w, fd))
            && (m > 0 ==> File(w', fd) == Splice(File(w, fd), off, w.mem[buf..buf + m]))
  {
  }

  lemma ChunkSaved(file: seq<Byte>, stream: seq<Byte>, received: nat, chunks: seq<Chunk>, n: nat, m: int)
    requires Saved(file, stream, received, chunks)
    requires 0 < n && received + n <= |stream| && m <= n
    ensures var file' := if m <= 0 then file else Splice(file, received, stream[received..received + m]);
            Saved(file', stream, received + n, chunks + [Chunk(received, n, m)])
  {
    var data := if m <= 0 then [] else stream[received..received + m];
    var file' := Splice(file, received, data);
    var c := Chunk(received, n, m);
    assert (chunks + [c])[..|chunks|] == chunks;
    forall i | 0 <= i < |chunks + [c]| ensures Agrees((chunks + [c])[i], file', stream) {
      if i < |chunks| {
        StillAgrees(chunks[i], file, file', stream);
      } else if m > 0 {
        assert (chunks + [c])[i] == c && |data| == m;
        assert forall p :: received <= p < received + m ==> file'[p] == data[p - received];
      }
    }
    if AllWritten(chunks + [c]) {
      forall i | 0 <= i < |chunks| ensures chunks[i].res == chunks[i].len {
        assert (chunks + [c])[i] == chunks[i];
      }
      assert (chunks + [c])[|chunks|].res == n;
      assert file' == stream[..received + n];
    }
  }

  lemma StillAgrees(c: Chunk, file: seq<Byte>, file': seq<Byte>, stream: seq<Byte>)
    requires Agrees(c, file, stream) && |file| <= |file'| && file'[..|file|] == file
    ensures Agrees(c, file', stream)
  {
    forall p | c.off <= p < c.off + c.res ensures file'[p] == stream[p] {
      assert file'[p] == file'[..|file|][p];
    }
  }

  /** The receive phase, until the stream ends or a recv fails.  However the stream splits into
      recv results, every chunk is written at its stream position.  One request at a time is
      outstanding. */
  method RecvPhase(r: Ring, sock: int, recvFd: int, buf: int)
    returns (r': Ring, recvFileOffset: nat, ghost chunks: seq<Chunk>, ghost last: Cqe)
    requires Idle(r) && r.depth == QUEUE_DEPTH
    requires File(r.world, recvFd) == []
    ensures r' == NewRing(QUEUE_DEPTH, r'.world)
    ensures last.op == Recv(sock, buf, CHUNK) && last.res <= 0
    ensures r'.world == Replay(Served(chunks, sock, recvFd, buf) + [last], r.world)
    ensures Saved(File(r'.world, recvFd), Stream(r.world, sock), recvFileOffset, chunks)
    ensures last.res == 0 ==> recvFileOffset == |Stream(r.world, sock)|
  {
    hide Transfer, Result, Saved, Stream, File, Served;
    ghost var stream := Stream(r.world, sock);
    NothingSaved(stream, sock, recvFd, buf, r.world);
    r', recvFileOffset, chunks := r, 0, [];
    while true
      invariant r' == NewRing(QUEUE_DEPTH, r'.world)
      invariant recvFileOffset <= |stream|
      invariant r'.world == Replay(Served(chunks, sock, recvFd, buf), r.world)
      invariant Saved(File(r'.world, recvFd), stream, recvFileOffset, chunks)
      invariant Stream(r'.world, sock) == stream[recvFileOffset..]
      decreases |stream| - recvFileOffset
    {
      ghost var before := r'.world;
      var c;
      ghost var f;
      assert HasRoom(r');
      r' := Enqueue(r', Recv(sock, buf, CHUNK));
      r', c, f := SubmitAndWaitOne(r');
      RecvTakes(before, sock, recvFd, buf, f);
      if c.res <= 0 {
        last := c;
        ServedLast(Served(chunks, sock, recvFd, buf), last, r.world);
        break;
      }
      var bytesReceived := c.res;
      ghost var middle, g := r'.world, Fine;
      assert HasRoom(r');
      r' := Enqueue(r', Write(recvFd, buf, bytesReceived, recvFileOffset));
      SavedBound(File(middle, recvFd), stream, recvFileOffset, chunks);
      r', c, g := SubmitAndWaitOne(r');
      ServedMore(chunks, Chunk(recvFileOffset, bytesReceived, c.res), sock, recvFd, buf, r.world);
      WriteStores(middle, sock, recvFd, buf, bytesReceived, recvFileOffset, g);
      ChunkSaved(File(middle, recvFd), stream, recvFileOffset, chunks, bytesReceived, c.res);
      if c.res > 0 {
        SameBytes(middle.mem, buf, stream, recvFileOffset, bytesReceived, c.res);
      }
      chunks := chunks + [Chunk(recvFileOffset, bytesReceived, c.res)];
      recvFileOffset := recvFileOffset + bytesReceived;
    }
  }

  lemma SameBytes(mem: seq<Byte>, buf: nat, stream: seq<Byte>, off: nat, n: nat, m: nat)
    requires m <= n && buf + n <= |mem| && off + n <= |stream| && mem[buf..buf + n] == stream[off..][..n]
    ensures mem[buf..buf + m] == stream[off..off + m]
  {
    assert mem[buf..buf + m] == mem[buf..buf + n][..m];
    assert stream[off..off + m] == stream[off..][..n][..m];
  }

  lemma NothingSaved(stream: seq<Byte>, sock: int, recvFd: int, buf: int, w: World)
    ensures Saved([], stream, 0, []) && Replay(Served([], sock, recvFd, buf), w) == w
  {
  }

  lemma SavedBound(file: seq<Byte>, stream: seq<Byte>, received: nat, chunks: seq<Chunk>)
    requires Saved(file, stream, received, chunks)
    ensures |file| <= received <= |stream|
  {
  }
}
