/** The four-ring pipeline: two circular buffers and the stages between them
    (ring_pipeline/four_ring_pipeline.c). */
module Pipeline {
  import opened Basics
  import opened Picks

  const RING_SIZE := 64
  const PACKET_SIZE := 2048
  const SUFFIX := " processed"

  /** The slots of a ring of size `n`, from `tail` on, as a queue of `count` entries. */
  function Window<T>(slots: seq<T>, tail: nat, count: nat): (r: seq<T>)
    requires tail < |slots| && count < |slots|
    ensures |r| == count
    ensures forall i :: 0 <= i < count ==>
              r[i] == if tail + i < |slots| then slots[tail + i] else slots[tail + i - |slots|]
  {
    seq(count, i requires 0 <= i < count =>
      if tail + i < |slots| then slots[tail + i] else slots[tail + i - |slots|])
  }

  function Succ(i: nat, n: nat): (r: nat)
    requires i < n
    ensures r == (i + 1) % n
    ensures r == if i + 1 < n then i + 1 else 0
  {
    if i + 1 < n then (assert (i + 1) % n == i + 1; i + 1) else (assert n % n == 0; 0)
  }

  /** The entries between tail and head, around the end of the buffer. */
  function Used(head: nat, tail: nat, n: nat): (c: nat)
    requires head < n && tail < n
    ensures c < n
    ensures c == 0 <==> head == tail
    ensures c == n - 1 <==> Succ(head, n) == tail
  {
    if head >= tail then head - tail else head + n - tail
  }

  class SimpleRing<T> {
    const buf: array<T>
    var head: nat
    var tail: nat

    ghost predicate Valid()
      reads this
    {
      buf.Length >= 1 && head < buf.Length && tail < buf.Length
    }

    /** The packets in the ring, oldest first. */
    ghost function Contents(): (s: seq<T>)
      requires Valid()
      reads this, buf
      ensures |s| < buf.Length
    {
      Window(buf[..], tail, Used(head, tail, buf.Length))
    }

    constructor (size: nat, zero: T)
      requires size >= 1
      ensures Valid() && fresh(buf) && buf.Length == size && Contents() == []
    {
      buf := new T[size](_ => zero);
      head, tail := 0, 0;
    }

    predicate IsFull()
      requires Valid()
      reads this, buf
      ensures IsFull() <==> |Contents()| == buf.Length - 1
    {
      (head + 1) % buf.Length == tail
    }

    predicate IsEmpty()
      requires Valid()
      reads this, buf
      ensures IsEmpty() <==> Contents() == []
    {
      head == tail
    }

    /** Appends, unless size - 1 entries are held already. */
    method Enqueue(p: T) returns (ok: bool)
      requires Valid()
      modifies `head, buf
      ensures Valid()
      ensures ok == (|old(Contents())| < buf.Length - 1)
      ensures Contents() == if ok then old(Contents()) + [p] else old(Contents())
    {
      if IsFull() {
        return false;
      }
      buf[head] := p;
      head := Succ(head, buf.Length);
      return true;
    }

    /** Removes the oldest entry, if there is one. */
    method Dequeue() returns (ok: bool, p: T)
      requires Valid()
      modifies `tail
      ensures Valid()
      ensures ok == (old(Contents()) != [])
      ensures ok ==> p == old(Contents())[0] && Contents() == old(Contents())[1..]
      ensures !ok ==> Contents() == old(Contents())
    {
      p := buf[tail];
      if IsEmpty() {
        return false, p;
      }
      tail := Succ(tail, buf.Length);
      return true, p;
    }
  }

  // ---------- Packets ----------

  /** A packet is its text, without the terminating zero; `len` counts that zero too. */
  type Packet = s: string | |s| + 1 <= PACKET_SIZE witness ""

  function LenOf(p: Packet): nat {
    |p| + 1
  }

  /** Appends the suffix, cut to the room the packet leaves. */
  function Processed(p: Packet): (q: Packet)
    ensures LenOf(q) == Min(LenOf(p) + |SUFFIX|, 2048)
    ensures p <= q && q <= p + SUFFIX
    ensures q == p + SUFFIX <==> LenOf(p) + |SUFFIX| <= 2048
  {
    p + SUFFIX[..Min(|SUFFIX|, PACKET_SIZE - LenOf(p))]
  }

  function ProcessedAll(ps: seq<Packet>): (r: seq<Packet>)
    ensures |r| == |ps| && forall i :: 0 <= i < |ps| ==> r[i] == Processed(ps[i])
  {
    seq(|ps|, i requires 0 <= i < |ps| => Processed(ps[i]))
  }

  lemma ProcessedAppend(ps: seq<Packet>, p: Packet)
    ensures ProcessedAll(ps + [p]) == ProcessedAll(ps) + [Processed(p)]
  {
  }

  lemma ProcessedHead(ps: seq<Packet>)
    requires ps != []
    ensures ProcessedAll(ps) == [Processed(ps[0])] + ProcessedAll(ps[1..])
  {
  }

  lemma Accept(before: seq<Packet>, waiting: seq<Packet>, accepted: seq<Packet>, kept: seq<nat>, p: Packet)
    requires Rising(kept) && Below(kept, |accepted|)
    requires before + ProcessedAll(waiting) == ProcessedAll(Pick(accepted, kept))
    ensures Rising(kept + [|accepted|]) && Below(kept + [|accepted|], |accepted + [p]|)
    ensures before + ProcessedAll(waiting + [p]) == ProcessedAll(Pick(accepted + [p], kept + [|accepted|]))
  {
    hide ProcessedAll, Processed;
    PickLonger(accepted, [p], kept);
    PickAppend(accepted + [p], kept, |accepted|);
    ProcessedAppend(waiting, p);
    ProcessedAppend(Pick(accepted, kept), p);
    assert before + (ProcessedAll(waiting) + [Processed(p)]) == before + ProcessedAll(waiting) + [Processed(p)];
  }

  // ---------- The stages ----------

  datatype Stage = Receive(p: Packet) | Process | Output

  /** The number of packets in rings 3 and 4 behind a stage. */
  function Lengths(stage: Stage, n3: nat, n4: nat): (nat, nat) {
    match stage
    case Receive(_) => (if n3 < RING_SIZE - 1 then n3 + 1 else n3, n4)
    case Process => if n3 == 0 then (n3, n4) else (n3 - 1, if n4 < RING_SIZE - 1 then n4 + 1 else n4)
    case Output => (n3, if n4 == 0 then 0 else n4 - 1)
  }

  /** No packet leaves ring 3 while ring 4 is full. */
  predicate Fits(schedule: seq<Stage>, n3: nat, n4: nat) {
    schedule != [] ==>
      && (schedule[0].Process? && n3 > 0 ==> n4 < RING_SIZE - 1)
      && var (m3, m4) := Lengths(schedule[0], n3, n4); Fits(schedule[1..], m3, m4)
  }

  /** The packets that find room in ring 3. */
  function Entering(schedule: seq<Stage>, n3: nat, n4: nat): seq<Packet> {
    if schedule == [] then []
    else
      var (m3, m4) := Lengths(schedule[0], n3, n4);
      (if schedule[0].Receive? && n3 < RING_SIZE - 1 then [schedule[0].p] else []) + Entering(schedule[1..], m3, m4)
  }

  lemma NextStage(schedule: seq<Stage>, i: nat, n3: nat, n4: nat)
    requires i < |schedule|
    ensures var (m3, m4) := Lengths(schedule[i], n3, n4);
            && (Fits(schedule[i..], n3, n4) <==>
                  (schedule[i].Process? && n3 > 0 ==> n4 < RING_SIZE - 1) && Fits(schedule[i + 1..], m3, m4))
            && Entering(schedule[i..], n3, n4)
               == (if schedule[i].Receive? && n3 < RING_SIZE - 1 then [schedule[i].p] else [])
                  + Entering(schedule[i + 1..], m3, m4)
  {
    assert schedule[i..][0] == schedule[i] && schedule[i..][1..] == schedule[i + 1..];
  }

  lemma NoStages(n3: nat, n4: nat)
    ensures Fits([], n3, n4) && Entering([], n3, n4) == []
  {
  }

  class Dispatcher {
    const ring3: SimpleRing<Packet>
    const ring4: SimpleRing<Packet>
    ghost var accepted: seq<Packet>  // packets that entered ring 3
    ghost var dropped: nat           // packets that found ring 4 full
    ghost var kept: seq<nat>         // the places of the accepted packets that were not dropped
    ghost var outputs: seq<Packet>

    ghost predicate Valid()
      reads this, ring3, ring4, ring3.buf, ring4.buf
    {
      && ring3 != ring4 && ring3.buf != ring4.buf
      && ring3.Valid() && ring4.Valid()
      && ring3.buf.Length == RING_SIZE && ring4.buf.Length == RING_SIZE
      && Rising(kept) && Below(kept, |accepted|) && |kept| + dropped == |accepted|
      && outputs + ring4.Contents() + ProcessedAll(ring3.Contents()) == ProcessedAll(Pick(accepted, kept))
    }

    constructor ()
      ensures Valid() && fresh(ring3) && fresh(ring4) && fresh(ring3.buf) && fresh(ring4.buf)
      ensures accepted == [] && outputs == [] && dropped == 0
      ensures ring3.Contents() == [] && ring4.Contents() == []
    {
      ring3 := new SimpleRing(RING_SIZE, "");
      ring4 := new SimpleRing(RING_SIZE, "");
      accepted, kept, outputs, dropped := [], [], [], 0;
    }

    method ReceiveStage(p: Packet) returns (ok: bool)
      requires Valid()
      modifies this, ring3, ring3.buf
      ensures Valid()
      ensures ok == (|old(ring3.Contents())| < 63)
      ensures accepted == old(accepted) + if ok then [p] else []
      ensures ring3.Contents() == old(ring3.Contents()) + if ok then [p] else []
      ensures ring4.Contents() == old(ring4.Contents()) && outputs == old(outputs) && dropped == old(dropped)
    {
      ghost var waiting := ring3.Contents();
      ok := ring3.Enqueue(p);
      if ok {
        assert ProcessedAll(waiting + [p]) == ProcessedAll(waiting) + [Processed(p)];
        Accept(outputs + ring4.Contents(), waiting, accepted, kept, p);
        accepted, kept := accepted + [p], kept + [|accepted|];
      }
    }

    /** A packet that leaves ring 3 while ring 4 is full is lost. */
    method ProcessStage() returns (ok: bool)
      requires Valid()
      modifies this, ring3, ring4, ring4.buf
      ensures Valid()
      ensures ok == (old(ring3.Contents()) != [])
      ensures ring3.Contents() == if ok then old(ring3.Contents())[1..] else []
      ensures var fits := ok && |old(ring4.Contents())| < 63;
              && ring4.Contents() == old(ring4.Contents()) + (if fits then [Processed(old(ring3.Contents())[0])] else [])
              && dropped == old(dropped) + if ok && !fits then 1 else 0
      ensures accepted == old(accepted) && outputs == old(outputs)
    {
      hide Window, Used, ProcessedAll, Processed, Pick;
      ghost var waiting, ready := ring3.Contents(), ring4.Contents();
      var p;
      ok, p := ring3.Dequeue();
      if ok {
        ProcessedHead(waiting);
        assert outputs + ready + ProcessedAll(waiting) == outputs + (ready + [Processed(p)]) + ProcessedAll(waiting[1..]);
        var stored := ring4.Enqueue(Processed(p));
        if !stored {
          DropOne(outputs + ready, waiting);
          dropped := dropped + 1;
        }
      }
    }

    ghost method DropOne(before: seq<Packet>, waiting: seq<Packet>)
      requires Rising(kept) && Below(kept, |accepted|) && waiting != []
      requires before + ProcessedAll(waiting) == ProcessedAll(Pick(accepted, kept))
      modifies `kept
      ensures Rising(kept) && Below(kept, |accepted|) && |kept| == |old(kept)| - 1
      ensures before + ProcessedAll(waiting[1..]) == ProcessedAll(Pick(accepted, kept))
    {
      var k := |before|;
      var all := before + ProcessedAll(waiting);
      assert all == ProcessedAll(Pick(accepted, kept)) && |all| == |kept|;
      kept := kept[..k] + kept[k + 1..];
      forall i | 0 <= i < |kept|
        ensures Processed(accepted[kept[i]]) == (before + ProcessedAll(waiting[1..]))[i]
      {
        var j := if i < k then i else i + 1;
        assert kept[i] == old(kept)[j];
        assert ProcessedAll(Pick(accepted, old(kept)))[j] == all[j];
      }
    }

    method OutputStage() returns (ok: bool)
      requires Valid()
      modifies this, ring4
      ensures Valid()
      ensures ok == (old(ring4.Contents()) != [])
      ensures outputs == old(outputs) + if ok then [old(ring4.Contents())[0]] else []
      ensures ring4.Contents() == if ok then old(ring4.Contents())[1..] else []
      ensures ring3.Contents() == old(ring3.Contents()) && accepted == old(accepted) && dropped == old(dropped)
    {
      hide Window, Used, ProcessedAll, Processed, Pick;
      ghost var ready := ring4.Contents();
      var p;
      ok, p := ring4.Dequeue();
      if ok {
        assert outputs + ready == (outputs + [p]) + ready[1..];
        outputs := outputs + [p];
      }
    }

    /** One stage; the lengths of the rings tell what becomes of its packet. */
    method Step(stage: Stage)
      requires Valid()
      modifies this, ring3, ring4, ring3.buf, ring4.buf
      ensures Valid()
      ensures (|ring3.Contents()|, |ring4.Contents()|)
              == Lengths(stage, |old(ring3.Contents())|, |old(ring4.Contents())|)
      ensures accepted == old(accepted) +
                if stage.Receive? && |old(ring3.Contents())| < RING_SIZE - 1 then [stage.p] else []
      ensures dropped == old(dropped) +
                if stage.Process? && old(ring3.Contents()) != [] && |old(ring4.Contents())| >= RING_SIZE - 1 then 1 else 0
    {
      hide Window, Used, ProcessedAll, Processed, Pick, Rising;
      match stage {
        case Receive(p) => var _ := ReceiveStage(p);
        case Process => var _ := ProcessStage();
        case Output => var _ := OutputStage();
      }
    }

    /** Under every schedule of the stages, outputs, ring 4 and the processed ring 3 together are
        the processed packets that entered ring 3, in order, without those lost; and none is lost
        exactly if the schedule never processes into a full ring 4. */
    method Run(schedule: seq<Stage>)
      requires Valid()
      modifies this, ring3, ring4, ring3.buf, ring4.buf
      ensures Valid()
      ensures accepted == old(accepted) + Entering(schedule, |old(ring3.Contents())|, |old(ring4.Contents())|)
      ensures dropped == old(dropped) <==> Fits(schedule, |old(ring3.Contents())|, |old(ring4.Contents())|)
      ensures outputs + ring4.Contents() + ProcessedAll(ring3.Contents()) == ProcessedAll(accepted) <==> dropped == 0
      ensures old(dropped) == 0 ==>
                (outputs + ring4.Contents() + ProcessedAll(ring3.Contents()) == ProcessedAll(accepted) <==>
                 Fits(schedule, |old(ring3.Contents())|, |old(ring4.Contents())|))
    {
      hide Window, Used, ProcessedAll, Processed, Pick, Rising, Lengths, Fits, Entering;
      ghost var n3, n4 := |ring3.Contents()|, |ring4.Contents()|;
      assert schedule[0..] == schedule;
      assert accepted + Entering(schedule, n3, n4) == old(accepted) + Entering(schedule, n3, n4);
      for i := 0 to |schedule|
        invariant Valid() && dropped >= old(dropped)
        invariant accepted + Entering(schedule[i..], |ring3.Contents()|, |ring4.Contents()|)
                  == old(accepted) + Entering(schedule, n3, n4)
        invariant Fits(schedule, n3, n4) <==>
                    dropped == old(dropped) && Fits(schedule[i..], |ring3.Contents()|, |ring4.Contents()|)
      {
        NextStage(schedule, i, |ring3.Contents()|, |ring4.Contents()|);
        Step(schedule[i]);
      }
      NoStages(|ring3.Contents()|, |ring4.Contents()|);
      assert schedule[|schedule|..] == [];
      assert accepted + [] == accepted;
      if dropped == 0 {
        PickAll(accepted, kept);
      }
    }

    /** The dispatcher loop: both rings are empty at each loop head and every packet comes out. */
    method Dispatch(packets: seq<Packet>)
      requires Valid() && ring3.Contents() == [] && ring4.Contents() == []
      modifies this, ring3, ring4, ring3.buf, ring4.buf
      ensures Valid() && ring3.Contents() == [] && ring4.Contents() == []
      ensures dropped == old(dropped) && outputs == old(outputs) + ProcessedAll(packets)
    {
      assert ProcessedAll(packets[..0]) == [];
      hide Window, Used, ProcessedAll, Processed, Pick;
      for i := 0 to |packets|
        invariant Valid() && ring3.Contents() == [] && ring4.Contents() == []
        invariant dropped == old(dropped) && outputs == old(outputs) + ProcessedAll(packets[..i])
      {
        var received := ReceiveStage(packets[i]);
        assert received;
        var processed := ProcessStage();
        var written := OutputStage();
        assert processed && written;
        assert packets[..i + 1] == packets[..i] + [packets[i]];
        ProcessedAppend(packets[..i], packets[i]);
      }
      assert packets[..|packets|] == packets;
    }
  }
}
