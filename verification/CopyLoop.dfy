/** The copy program the batching is measured with (IO_syscall_patch/test_speed.c). */
module CopyLoop {
  import opened Basics
  import opened World
  import opened Tiling

  const BUFFER_SIZE := 1024

  /** One pass of the loop: `asked` and `got` of the read at `off`, `put` of the write at `at`. */
  datatype Pass = Pass(off: nat, asked: nat, got: Pos, at: nat, put: Pos)

  /** The passes lead to `position` in the source and `written` in the copy. */
  predicate Leads(passes: seq<Pass>, size: nat, position: nat, written: nat) {
    if passes == [] then position == 0 && written == 0
    else
      var x := passes[|passes| - 1];
      && x.off < size && x.asked == Min(BUFFER_SIZE, size - x.off) && x.got <= x.asked && x.put <= x.got
      && x.off + x.got == position && x.at + x.put == written
      && Leads(passes[..|passes| - 1], size, x.off, x.at)
  }

  /** Each pass starts where the one before it ended, in the source by what was read, in the copy by
      what was written. */
  ghost predicate Adjacent(passes: seq<Pass>, size: nat) {
    && (forall i :: 0 <= i < |passes| ==>
          && passes[i].off < size && passes[i].asked == Min(1024, size - passes[i].off)
          && passes[i].got <= passes[i].asked && passes[i].put <= passes[i].got)
    && (forall i :: 0 < i < |passes| ==>
          passes[i].off == passes[i - 1].off + passes[i - 1].got && passes[i].at == passes[i - 1].at + passes[i - 1].put)
    && (passes != [] ==> passes[0].off == 0 && passes[0].at == 0)
  }

  lemma {:induction false} AdjacentMore(passes: seq<Pass>, size: nat)
    requires passes != []
    ensures var n, x := |passes| - 1, passes[|passes| - 1];
            Adjacent(passes, size) <==>
            && Adjacent(passes[..n], size)
            && x.off < size && x.asked == Min(1024, size - x.off) && x.got <= x.asked && x.put <= x.got
            && (if n == 0 then x.off == 0 && x.at == 0
                else x.off == passes[n - 1].off + passes[n - 1].got && x.at == passes[n - 1].at + passes[n - 1].put)
  {
    var n := |passes| - 1;
    assert forall i :: 0 <= i < n ==> passes[..n][i] == passes[i];
  }

  lemma {:induction false} LeadsIff(passes: seq<Pass>, size: nat, position: nat, written: nat)
    ensures Leads(passes, size, position, written) <==>
            && Adjacent(passes, size)
            && (if passes == [] then position == 0 && written == 0
                else
                  && position == passes[|passes| - 1].off + passes[|passes| - 1].got
                  && written == passes[|passes| - 1].at + passes[|passes| - 1].put)
    decreases |passes|
  {
    if passes != [] {
      hide Adjacent;
      var n := |passes| - 1;
      LeadsIff(passes[..n], size, passes[n].off, passes[n].at);
      AdjacentMore(passes, size);
    }
  }

  function Calls(passes: seq<Pass>, src: int, dst: int, buf: int): seq<Cqe> {
    if passes == [] then []
    else
      var x := passes[|passes| - 1];
      Calls(passes[..|passes| - 1], src, dst, buf)
      + [Cqe(Read(src, buf, x.asked, x.off), x.got), Cqe(Write(dst, buf, x.got, x.at), x.put)]
  }

  predicate NoShortRead(passes: seq<Pass>) {
    forall i :: 0 <= i < |passes| ==> passes[i].got == passes[i].asked
  }

  predicate NoShortWrite(passes: seq<Pass>) {
    forall i :: 0 <= i < |passes| ==> passes[i].put == passes[i].got
  }

  lemma OnePassMore(passes: seq<Pass>, x: Pass, size: nat, src: int, dst: int, buf: int, w: World)
    requires Leads(passes, size, x.off, x.at) && x.off < size
    requires x.asked == Min(BUFFER_SIZE, size - x.off) && x.got <= x.asked && x.put <= x.got
    ensures Leads(passes + [x], size, x.off + x.got, x.at + x.put)
    ensures NoShortRead(passes + [x]) <==> NoShortRead(passes) && x.got == x.asked
    ensures NoShortWrite(passes + [x]) <==> NoShortWrite(passes) && x.put == x.got
    ensures var before := Replay(Calls(passes, src, dst, buf), w);
            Replay(Calls(passes + [x], src, dst, buf), w)
            == Transfer(Write(dst, buf, x.got, x.at), x.put, Transfer(Read(src, buf, x.asked, x.off), x.got, before))
  {
    hide Transfer;
    assert (passes + [x])[..|passes|] == passes && (passes + [x])[|passes|] == x;
    assert forall i :: 0 <= i < |passes| ==> (passes + [x])[i] == passes[i];
    ReplayTwo(Calls(passes, src, dst, buf), Cqe(Read(src, buf, x.asked, x.off), x.got),
              Cqe(Write(dst, buf, x.got, x.at), x.put), w);
  }

  /** After `position` bytes were read and `written` bytes written. */
  ghost predicate Copied(source: seq<Byte>, dest: seq<Byte>, position: nat, written: nat, full: bool) {
    && written == |dest| <= position <= |source|
    && (full <==> written == position)
    && (full ==> dest == source[..position])
  }

  ghost predicate Opened(w: World, src: int, dst: int, buf: nat) {
    src in w.files && dst in w.files && src != dst && buf + BUFFER_SIZE <= |w.mem|
  }

  lemma ReadTakes(w: World, src: int, dst: int, buf: nat, n: nat, position: nat, f: Fault)
    requires Opened(w, src, dst, buf) && 0 < n <= BUFFER_SIZE && position + n <= |w.files[src]|
    ensures var op := Read(src, buf, n, position);
            var k := Result(op, f, w);
            var w' := Transfer(op, k, w);
            && k != 0 && k <= n && Opened(w', src, dst, buf) && w'.files == w.files
            && (f == Fine ==> k == n)
            && (k > 0 ==> w'.mem[buf..buf + k] == w.files[src][position..position + k])
  {
  }

  lemma WriteAppends(w: World, src: int, dst: int, buf: nat, n: nat, f: Fault)
    requires Opened(w, src, dst, buf) && 0 < n <= BUFFER_SIZE
    ensures var op := Write(dst, buf, n, |w.files[dst]|);
            var k := Result(op, f, w);
            var w' := Transfer(op, k, w);
            && k != 0 && k <= n && Opened(w', src, dst, buf) && w'.files[src] == w.files[src]
            && (k > 0 ==> w'.files[dst] == w.files[dst] + w.mem[buf..buf + k])
  {
  }

  lemma ChunkCopied(source: seq<Byte>, dest: seq<Byte>, position: nat, full: bool,
                    mem: seq<Byte>, buf: nat, n: nat, k: nat)
    requires Copied(source, dest, position, |dest|, full)
    requires position + n <= |source| && k <= n && buf + n <= |mem|
    requires mem[buf..buf + n] == source[position..position + n]
    ensures Copied(source, dest + mem[buf..buf + k], position + n, |dest| + k, full && k == n)
  {
    var data := mem[buf..buf + k];
    assert data == mem[buf..buf + n][..k];
    if full && k == n {
      assert source[..position + n] == source[..position] + data;
    }
  }

  lemma CopiedSoFar(source: seq<Byte>, dest: seq<Byte>, position: nat, written: nat, full: bool)
    requires Copied(source, dest, position, written, full)
    ensures |dest| == written
    ensures full ==> dest <= source
    ensures position == |source| ==> (dest == source <==> full)
  {
  }

  lemma NothingCopied(source: seq<Byte>, src: int, dst: int, buf: int, w: World)
    ensures Copied(source, [], 0, 0, true) && Replay(Calls([], src, dst, buf), w) == w
  {
  }

  /** Copies the file, whatever the kernel makes of each call.  On success the copy is exact
      exactly if no write was short, and without short reads it takes ceil(size / 1024) passes. */
  method Copy(w: World, src: int, dst: int, buf: nat)
    returns (w': World, count: nat, ok: bool, position: nat, ghost passes: seq<Pass>)
    requires Opened(w, src, dst, buf) && w.files[dst] == []
    ensures Opened(w', src, dst, buf) && w'.files[src] == w.files[src] && count == |passes|
    ensures Leads(passes, |w.files[src]|, position, |w'.files[dst]|) && (ok <==> position == |w.files[src]|)
    ensures ok ==> w' == Replay(Calls(passes, src, dst, buf), w)
    ensures ok ==> (w'.files[dst] == w.files[src] <==> NoShortWrite(passes))
    ensures NoShortWrite(passes) ==> w'.files[dst] <= w.files[src]
    ensures var size := |w.files[src]|;
            ok ==>
              && Ceil(size, BUFFER_SIZE) <= count <= size
              && (NoShortRead(passes) ==> count == Ceil(size, BUFFER_SIZE))
  {
    hide Transfer, Result, Copied, Leads, Calls, NoShortRead, NoShortWrite;
    ghost var source := w.files[src];
    NothingCopied(source, src, dst, buf, w);
    NoPasses(|source|);
    w', count, ok, passes := w, 0, false, [];
    position := 0;
    var remaining, written := |w.files[src]|, 0;
    while remaining > 0
      invariant remaining >= 0 && position == |source| - remaining
      invariant Opened(w', src, dst, buf) && w'.files[src] == source
      invariant Leads(passes, |source|, position, written) && w' == Replay(Calls(passes, src, dst, buf), w)
      invariant Copied(source, w'.files[dst], position, written, NoShortWrite(passes))
      invariant |passes| == count <= position <= count * BUFFER_SIZE
      invariant NoShortRead(passes) ==>
                  position == Min(count * BUFFER_SIZE, |source|) && count * BUFFER_SIZE < |source| + BUFFER_SIZE
      decreases remaining
    {
      var bytesRead := BUFFER_SIZE;
      if remaining < BUFFER_SIZE {
        bytesRead := remaining;
      }
      CopiedSoFar(source, w'.files[dst], position, written, NoShortWrite(passes));
      var f, g: Fault := *, *;
      var read := Read(src, buf, bytesRead, position);
      ReadTakes(w', src, dst, buf, bytesRead, position, f);
      var got := Result(read, f, w');
      w' := Transfer(read, got, w');
      if got < 0 {
        // The length -1 that is now passed to write is refused.
        return;
      }
      var write := Write(dst, buf, got, written);
      WriteAppends(w', src, dst, buf, got, g);
      var put := Result(write, g, w');
      if put < 0 {
        WriteFails(w', write, put);
        return;
      }
      ghost var x := Pass(position, bytesRead, got, written, put);
      ChunkCopied(source, w'.files[dst], position, NoShortWrite(passes), w'.mem, buf, got, put);
      OnePassMore(passes, x, |source|, src, dst, buf, w);
      w' := Transfer(write, put, w');
      remaining, position, written := remaining - got, position + got, written + put;
      passes := passes + [x];
      count := count + 1;
    }
    CopiedSoFar(source, w'.files[dst], position, written, NoShortWrite(passes));
    ok := true;
  }

  lemma NoPasses(size: nat)
    ensures Leads([], size, 0, 0) && NoShortRead([]) && NoShortWrite([])
  {
  }

  lemma WriteFails(w: World, write: Op, put: int)
    requires put < 0
    ensures Transfer(write, put, w) == w
  {
  }
}
