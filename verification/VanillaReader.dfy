/** The batched reader (iouring_hotpatch/vanilla_uring_read.c). */
module VanillaReader {
  import opened World
  import opened Uring
  import opened Tiling

  const BATCH := 256
  const QUEUE_DEPTH := 512

  function Reads(tiles: seq<Tile>, fd: int, buf: int): (r: seq<Op>)
    ensures |r| == |tiles|
    ensures forall i :: 0 <= i < |tiles| ==> r[i] == Read(fd, buf, tiles[i].len, tiles[i].off)
  {
    seq(|tiles|, i requires 0 <= i < |tiles| => Read(fd, buf, tiles[i].len, tiles[i].off))
  }

  ghost predicate NoneFailed(posted: seq<Cqe>) {
    forall i :: 0 <= i < |posted| ==> posted[i].res >= 0
  }

  /** The completions are those of the batches, each request once. */
  ghost predicate Reaped(batches: seq<seq<Op>>, posted: seq<Cqe>) {
    multiset(Ops(posted)) == multiset(Flatten(batches))
  }

  lemma ReapedMore(batches: seq<seq<Op>>, posted: seq<Cqe>, batch: seq<Op>, more: seq<Cqe>)
    requires Reaped(batches, posted) && multiset(Ops(more)) == multiset(batch)
    ensures Reaped(batches + [batch], posted + more)
    ensures NoneFailed(posted + more) <==> NoneFailed(posted) && NoneFailed(more)
    ensures Flatten(batches + [batch]) == Flatten(batches) + batch
  {
    FlattenAppend(batches, [batch]);
    assert Flatten([batch]) == batch;
    assert Ops(posted + more) == Ops(posted) + Ops(more);
    assert forall i :: 0 <= i < |posted| ==> (posted + more)[i] == posted[i];
    assert forall i :: 0 <= i < |more| ==> (posted + more)[|posted| + i] == more[i];
  }

  /** Submit the batch and block until all of it is complete. */
  method SubmitBatch(r: Ring, count: nat) returns (r': Ring)
    requires r.flying == [] && r.cq == [] && |r.sq| == count
    ensures r' == NewRing(r.depth, r'.world).(cq := r'.cq) && |r'.cq| == count
    ensures multiset(Ops(r'.cq)) == multiset(Queued(r.sq))
  {
    ghost var sched;
    SubmitCounts(r);
    r', sched := SubmitAndWait(r, count);
    BatchComplete(r, sched);
  }

  lemma BatchComplete(r: Ring, sched: seq<Choice>)
    requires r.flying == [] && r.cq == []
    ensures var end := Runs(Submit(r), sched);
            |end.cq| >= |r.sq| ==>
              && end == NewRing(r.depth, end.world).(cq := end.cq) && |end.cq| == |r.sq|
              && multiset(Ops(end.cq)) == multiset(Queued(r.sq))
  {
    hide Runs, Merge;
    SubmitCounts(r);
    if |Runs(Submit(r), sched).cq| < |r.sq| {
      return;
    }
    DrainedIsSettled(Submit(r), sched);
    var posted := PostedBy(Submit(r), sched);
    assert [] + posted == posted;
    assert Submit(r).flying == Chains(Queued(r.sq), Links(r.sq));
    MergeKeepsAll(Submit(r).flying, Ops(posted));
  }

  /** Submit the batch and take its completions; a failed read ends the program, with its
      completion still on the ring. */
  method FlushBatch(r: Ring, count: nat) returns (r': Ring, ok: bool, ghost posted: seq<Cqe>)
    requires r.flying == [] && r.cq == [] && |r.sq| == count
    ensures multiset(Ops(posted)) == multiset(Queued(r.sq))
    ensures ok <==> NoneFailed(posted)
    ensures ok <==> r' == NewRing(r.depth, r'.world)
  {
    r' := SubmitBatch(r, count);
    ghost var complete := r';
    posted := r'.cq;
    for i := 0 to count
      invariant r' == complete.(cq := posted[i..])
      invariant forall k :: 0 <= k < i ==> posted[k].res >= 0
    {
      var unseen, c := r', Cqe(Fsync(0), 0);
      ghost var sched;
      r', c, sched := WaitCqe(unseen);
      NothingFlying(unseen, sched);
      if c.res < 0 {
        assert posted[i].res < 0;
        return unseen, false, posted;
      }
    }
    ok := true;
  }

  /** The requests are the tiles of the file, `totalReads` of them, in batches of 256, each read
      reaped once; the program gets through exactly if no read fails. */
  method BenchmarkReads(r: Ring, fd: int, buf: int, size: nat)
    returns (r': Ring, ok: bool, totalReads: nat, ghost batches: seq<seq<Op>>, ghost posted: seq<Cqe>)
    requires Idle(r) && r.depth == QUEUE_DEPTH
    ensures ok <==> NoneFailed(posted)
    ensures Reaped(batches, posted)
    ensures ok ==> r' == NewRing(QUEUE_DEPTH, r'.world) && totalReads == Ceil(size, 4096)
    ensures ok ==> CutInto(batches, Reads(Tiles(size, 0), fd, buf), 256) && |batches| == Ceil(totalReads, 256)
  {
    hide Reaped, NoneFailed, Flatten, Ceil, Tiles, Reads;
    NothingReaped();
    var fileOffset, batchCount := 0, 0;
    r', totalReads, batches, posted := r, 0, [], [];
    ghost var tiles: seq<Tile> := [];
    while fileOffset < size
      invariant fileOffset <= size
      invariant tiles + Tiles(size, fileOffset) == Tiles(size, 0) && totalReads == |tiles|
      invariant Flatten(batches) + Queued(r'.sq) == Reads(tiles, fd, buf)
      invariant batchCount <= BATCH && totalReads == |batches| * BATCH + batchCount
      invariant batchCount == 0 ==> totalReads == 0
      invariant forall i :: 0 <= i < |batches| ==> |batches[i]| == BATCH
      invariant r'.flying == [] && r'.cq == [] && r'.depth == QUEUE_DEPTH && |r'.sq| == batchCount
      invariant Reaped(batches, posted) && NoneFailed(posted)
      decreases size - fileOffset
    {
      if batchCount >= BATCH {
        ghost var batch, more := Queued(r'.sq), [];
        r', ok, more := FlushBatch(r', batchCount);
        ReapedMore(batches, posted, batch, more);
        batches, posted := batches + [batch], posted + more;
        if !ok {
          return;
        }
        batchCount := 0;
      }
      assert HasRoom(r');
      var bytesToRead := CHUNK;
      if fileOffset + CHUNK > size {
        bytesToRead := size - fileOffset;
      }
      ghost var tile, read := Tile(fileOffset, bytesToRead), Read(fd, buf, bytesToRead, fileOffset);
      NextRead(r', read);
      NextTile(size, fileOffset, tiles, fd, buf);
      r' := Enqueue(r', Read(fd, buf, bytesToRead, fileOffset));
      tiles := tiles + [tile];
      fileOffset := fileOffset + bytesToRead;
      batchCount := batchCount + 1;
      totalReads := totalReads + 1;
    }
    NoTiles(size, tiles);
    TilesClosedForm(size);
    ok := true;
    if batchCount > 0 {
      ghost var batch, more := Queued(r'.sq), [];
      r', ok, more := FlushBatch(r', batchCount);
      ReapedMore(batches, posted, batch, more);
      batches, posted := batches + [batch], posted + more;
      BatchesNeeded(totalReads, |batches| - 1, batchCount);
    } else {
      BatchesNeeded(0, 0, 0);
    }
  }

  lemma NextRead(r: Ring, read: Op)
    ensures Queued(r.sq + [Sqe(read, false)]) == Queued(r.sq) + [read]
  {
  }

  lemma NextTile(size: nat, off: nat, tiles: seq<Tile>, fd: int, buf: int)
    requires off < size
    ensures var len := ChunkAt(size, off);
            && tiles + Tiles(size, off) == (tiles + [Tile(off, len)]) + Tiles(size, off + len)
            && Reads(tiles + [Tile(off, len)], fd, buf) == Reads(tiles, fd, buf) + [Read(fd, buf, len, off)]
  {
    assert Tiles(size, off) == [Tile(off, ChunkAt(size, off))] + Tiles(size, off + ChunkAt(size, off));
  }

  lemma NoTiles(size: nat, tiles: seq<Tile>)
    ensures Tiles(size, size) == [] && tiles + Tiles(size, size) == tiles
  {
  }

  lemma NothingReaped()
    ensures Reaped([], []) && NoneFailed([]) && Flatten<Op>([]) == []
  {
  }

  lemma BatchesNeeded(n: nat, full: nat, rest: nat)
    requires n == full * BATCH + rest && rest <= BATCH
    ensures Ceil(n, BATCH) == if rest == 0 then full else full + 1
  {
  }
}
