/** Cutting a file into chunks, as the clients do: 4096 bytes each, the last one shorter. */
module Tiling {
  const CHUNK := 4096

  datatype Tile = Tile(off: nat, len: nat)

  function Ceil(n: nat, d: nat): nat
    requires d > 0
  {
    (n + d - 1) / d
  }

  function ChunkAt(size: nat, off: nat): (len: nat)
    requires off < size
    ensures 0 < len <= CHUNK && off + len <= size
  {
    if off + CHUNK > size then size - off else CHUNK
  }

  function Tiles(size: nat, off: nat): seq<Tile>
    decreases size - off
  {
    if off >= size then []
    else [Tile(off, ChunkAt(size, off))] + Tiles(size, off + ChunkAt(size, off))
  }

  lemma {:induction false} TilesFrom(size: nat, k: nat)
    requires k * CHUNK <= size + CHUNK
    ensures |Tiles(size, k * CHUNK)| == if k * CHUNK >= size then 0 else Ceil(size, CHUNK) - k
    ensures forall i :: 0 <= i < |Tiles(size, k * CHUNK)| ==>
              && Tiles(size, k * CHUNK)[i].off == (k + i) * CHUNK < size
              && Tiles(size, k * CHUNK)[i].len == if (k + i + 1) * CHUNK <= size then CHUNK else size - (k + i) * CHUNK
    decreases size + CHUNK - k * CHUNK
  {
    if k * CHUNK < size {
      if k * CHUNK + CHUNK <= size {
        TilesFrom(size, k + 1);
      } else {
        assert Tiles(size, size) == [];
      }
    }
  }

  /** The tiles in closed form: contiguous, 1 to 4096 bytes, ceil(size / 4096) of them. */
  lemma TilesClosedForm(size: nat)
    ensures |Tiles(size, 0)| == Ceil(size, 4096)
    ensures forall i :: 0 <= i < |Tiles(size, 0)| ==>
              && Tiles(size, 0)[i].off == i * 4096 < size
              && Tiles(size, 0)[i].len == if (i + 1) * 4096 <= size then 4096 else size - i * 4096
  {
    TilesFrom(size, 0);
  }

  predicate Covers(t: Tile, p: int) {
    t.off <= p < t.off + t.len
  }

  lemma TileOf(size: nat, i: nat, p: nat)
    requires i < |Tiles(size, 0)|
    ensures Covers(Tiles(size, 0)[i], p) <==> p < size && i == p / CHUNK
  {
    hide Tiles, Ceil;
    TilesClosedForm(size);
    var t, q := Tiles(size, 0)[i], p / CHUNK;
    assert q * CHUNK <= p < q * CHUNK + CHUNK;
    assert (i + 1) * CHUNK == i * CHUNK + CHUNK;
    assert i * CHUNK <= p < i * CHUNK + CHUNK <==> i == q;
    assert t.off == i * CHUNK && t.off + t.len == if (i + 1) * CHUNK <= size then i * CHUNK + CHUNK else size;
  }

  /** Every byte of the file, and nothing else, lies in exactly one tile. */
  lemma TilesPartition(size: nat, p: nat)
    ensures p < size <==> exists i :: 0 <= i < |Tiles(size, 0)| && Covers(Tiles(size, 0)[i], p)
    ensures forall i, j | 0 <= i < |Tiles(size, 0)| && 0 <= j < |Tiles(size, 0)| ::
              Covers(Tiles(size, 0)[i], p) && Covers(Tiles(size, 0)[j], p) ==> i == j
  {
    TilesClosedForm(size);
    forall i | 0 <= i < |Tiles(size, 0)| ensures Covers(Tiles(size, 0)[i], p) <==> p < size && i == p / CHUNK {
      TileOf(size, i, p);
    }
    if p < size {
      assert p / CHUNK < Ceil(size, CHUNK);
      assert Covers(Tiles(size, 0)[p / CHUNK], p);
    }
  }
}
