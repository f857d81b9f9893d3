/** What a request does to the process and the kernel objects it names.

    Memory, files and sockets are byte sequences.  A request takes effect in one step; how
    many bytes it moves is decided by the state it meets (end of file, data in the socket)
    and by the kernel, which may fail it or cut it short. */
module World {
  import opened Basics

  type Byte = x: int | 0 <= x < 256
  type Pos = x: int | 0 < x witness 1

  const EBADF := 9
  const EFAULT := 14
  const EINVAL := 22
  const ECANCELED := 125

  datatype World = World(
    mem: seq<Byte>,
    files: map<int, seq<Byte>>,
    outbox: map<int, seq<Byte>>,  // bytes sent so far, per socket
    inbox: map<int, seq<Byte>>)   // bytes still to be received, per socket

  datatype Op =
    | Read(fd: int, buf: int, n: nat, off: int)
    | Write(fd: int, buf: int, n: nat, off: int)
    | Send(fd: int, buf: int, n: nat)
    | Recv(fd: int, buf: int, n: nat)
    | Fsync(fd: int)

  /** The kernel's own choice: run the request, fail it, or move at most `limit` bytes. */
  datatype Fault = Fine | Fail(errno: Pos) | Cap(limit: Pos)

  datatype Cqe = Cqe(op: Op, res: int)

  function Len(op: Op): nat {
    if op.Fsync? then 0 else op.n
  }

  predicate Full(c: Cqe) {
    c.res == Len(c.op)
  }

  ghost predicate AllFull(cs: seq<Cqe>) {
    forall i :: 0 <= i < |cs| ==> Full(cs[i])
  }

  /** `data` stored over `s` from position `at` on. */
  function Overwrite(s: seq<Byte>, at: nat, data: seq<Byte>): (r: seq<Byte>)
    requires at + |data| <= |s|
    ensures |r| == |s|
    ensures forall i :: 0 <= i < |s| ==> r[i] == if at <= i < at + |data| then data[i - at] else s[i]
  {
    s[..at] + data + s[at + |data|..]
  }

  function Zeros(n: nat): (r: seq<Byte>)
    ensures |r| == n && forall i :: 0 <= i < n ==> r[i] == 0
  {
    seq(n, _ => 0)
  }

  /** A file after `data` is written at `at`: a gap behind the old end reads as zeros. */
  function Splice(f: seq<Byte>, at: nat, data: seq<Byte>): (r: seq<Byte>)
    ensures data == [] ==> r == f
    ensures data != [] ==> |r| == Max(|f|, at + |data|)
    ensures forall i :: 0 <= i < |r| ==>
              r[i] == if at <= i < at + |data| then data[i - at] else if i < |f| then f[i] else 0
  {
    if data == [] then f
    else Overwrite(f + Zeros(Max(0, at + |data| - |f|)), at, data)
  }

  predicate Mapped(op: Op, w: World) {
    op.Fsync? || (0 <= op.buf && op.buf + op.n <= |w.mem|)
  }

  /** The result of the plain system call: bytes moved, or a negative error number. */
  function Best(op: Op, w: World): int {
    if !Mapped(op, w) then -EFAULT
    else match op
      case Read(fd, _, n, off) =>
        if fd !in w.files then -EBADF
        else if off < 0 then -EINVAL
        else Min(n, Max(0, |w.files[fd]| - off))
      case Write(fd, _, n, off) =>
        if fd !in w.files then -EBADF else if off < 0 then -EINVAL else n
      case Send(fd, _, n) => if fd !in w.outbox then -EBADF else n
      case Recv(fd, _, n) => if fd !in w.inbox then -EBADF else Min(n, |w.inbox[fd]|)
      case Fsync(fd) => if fd !in w.files then -EBADF else 0
  }

  /** Which error the plain call reports, and when it reports none. */
  lemma ErrorsIff(op: Op, w: World)
    ensures Best(op, w) == -14 <==> !op.Fsync? && !(0 <= op.buf && op.buf + op.n <= |w.mem|)
    ensures Best(op, w) == -9 <==>
            && (op.Fsync? || (0 <= op.buf && op.buf + op.n <= |w.mem|))
            && op.fd !in (if op.Send? then w.outbox.Keys else if op.Recv? then w.inbox.Keys else w.files.Keys)
    ensures Best(op, w) == -22 <==>
            (op.Read? || op.Write?) && 0 <= op.buf && op.buf + op.n <= |w.mem| && op.fd in w.files && op.off < 0
    ensures Best(op, w) < 0 ==> Best(op, w) in {-14, -9, -22}
  {
  }

  function Result(op: Op, f: Fault, w: World): int {
    match f
    case Fine => Best(op, w)
    case Fail(e) => 0 - e
    case Cap(limit) => Min(Best(op, w), limit)
  }

  /** The kernel's freedom: a request may report any error, what the plain call would report, or
      any smaller positive count. */
  lemma ResultIff(op: Op, w: World, res: int)
    ensures (exists f :: Result(op, f, w) == res) <==> res < 0 || res == Best(op, w) || 1 <= res <= Best(op, w)
  {
    if res < 0 {
      assert Result(op, Fail(-res), w) == res;
    } else if res == Best(op, w) {
      assert Result(op, Fine, w) == res;
    } else if 1 <= res <= Best(op, w) {
      assert Result(op, Cap(res), w) == res;
    }
  }

  /** The world after `op` moved its first `k` bytes. */
  function Transfer(op: Op, k: int, w: World): World {
    if k <= 0 || k > Best(op, w) then w
    else match op
      case Read(fd, buf, _, off) => w.(mem := Overwrite(w.mem, buf, w.files[fd][off..off + k]))
      case Write(fd, buf, _, off) =>
        w.(files := w.files[fd := Splice(w.files[fd], off, w.mem[buf..buf + k])])
      case Send(fd, buf, _) => w.(outbox := w.outbox[fd := w.outbox[fd] + w.mem[buf..buf + k]])
      case Recv(fd, buf, _) =>
        w.(mem := Overwrite(w.mem, buf, w.inbox[fd][..k]), inbox := w.inbox[fd := w.inbox[fd][k..]])
      case Fsync(_) => w
  }

  /** The system call run at once and without interference. */
  function Do(op: Op, w: World): World {
    Transfer(op, Best(op, w), w)
  }

  function DoAll(ops: seq<Op>, w: World): World {
    if ops == [] then w else DoAll(ops[1..], Do(ops[0], w))
  }

  /** The world after the transfers reported by a list of completions. */
  function Replay(cs: seq<Cqe>, w: World): World {
    if cs == [] then w else Replay(cs[1..], Transfer(cs[0].op, cs[0].res, w))
  }

  function Ops(cs: seq<Cqe>): (r: seq<Op>)
    ensures |r| == |cs| && forall i :: 0 <= i < |cs| ==> r[i] == cs[i].op
  {
    seq(|cs|, i requires 0 <= i < |cs| => cs[i].op)
  }

  lemma {:induction false} DoAllAppend(a: seq<Op>, b: seq<Op>, w: World)
    ensures DoAll(a + b, w) == DoAll(b, DoAll(a, w))
  {
    if a == [] {
      assert a + b == b;
    } else {
      assert (a + b)[1..] == a[1..] + b;
      DoAllAppend(a[1..], b, Do(a[0], w));
    }
  }

  lemma {:induction false} ReplayAppend(a: seq<Cqe>, b: seq<Cqe>, w: World)
    ensures Replay(a + b, w) == Replay(b, Replay(a, w))
  {
    if a == [] {
      assert a + b == b;
    } else {
      assert (a + b)[1..] == a[1..] + b;
      ReplayAppend(a[1..], b, Transfer(a[0].op, a[0].res, w));
    }
  }

  lemma ReplayTwo(cs: seq<Cqe>, a: Cqe, b: Cqe, w: World)
    ensures Replay(cs + [a, b], w) == Transfer(b.op, b.res, Transfer(a.op, a.res, Replay(cs, w)))
  {
    hide Transfer;
    var before := Replay(cs, w);
    ReplayAppend(cs, [a, b], w);
    assert [a, b][1..] == [b] && [b][1..] == [];
    assert Replay([a, b], before) == Replay([b], Transfer(a.op, a.res, before));
  }

  /** A request that moved everything it asked for did what the plain system call does. */
  lemma FullMeansPlain(op: Op, f: Fault, w: World)
    requires Result(op, f, w) == Len(op)
    ensures Result(op, f, w) == Best(op, w)
    ensures Transfer(op, Result(op, f, w), w) == Do(op, w)
  {
  }
}
