/** The recorder's producer/consumer ring: one thread writes decoded sound, another
    takes whole sample frames, and both meet only in critical sections. */
module Recorder {
  import opened MediaFraming
  import Arithmetic
  import Rings

  const CHUNK: nat := 8192

  /** The ring as a queue, with what its two threads have done so far. */
  datatype State = State(queue: seq<Byte>, stopping: bool, finished: bool, accepted: seq<Byte>, recorded: seq<Byte>)

  const Idle := State([], false, false, [], [])

  /** The critical sections of the threads, in the order in which they get the lock. */
  datatype Section = Write(data: seq<Byte>) | Consume | Stop

  function Whole(n: nat, frame: nat): (w: nat)
    requires frame > 0
    ensures w <= n && n - w == n % frame
  {
    n - n % frame
  }

  /** How much the consumer takes at once: whole frames, no more than its chunk holds. */
  function Portion(queued: nat, frame: nat): (n: nat)
    requires frame > 0
    ensures n <= queued
  {
    Whole(if queued < CHUNK then queued else CHUNK, frame)
  }

  function Step(s: State, op: Section, size: nat, frame: nat): State
    requires frame > 0
  {
    match op
    case Write(data) =>
      // The writing thread is also the one that stops and then waits for the consumer.
      if s.stopping || data == [] || |s.queue| + |data| > size then s
      else s.(queue := s.queue + data, accepted := s.accepted + data)
    case Consume =>
      var got := Portion(|s.queue|, frame);
      if s.finished || (s.queue == [] && !s.stopping) then s
      else if s.queue == [] then s.(finished := true)
      else if got == 0 then (if s.stopping then s.(queue := [], finished := true) else s)
      else s.(queue := s.queue[got..], recorded := s.recorded + s.queue[..got])
    case Stop => s.(stopping := true)
  }

  function Run(s: State, ops: seq<Section>, size: nat, frame: nat): State
    requires frame > 0
    decreases |ops|
  {
    if ops == [] then s else Run(Step(s, ops[0], size, frame), ops[1..], size, frame)
  }

  /** What is recorded and what is queued is what was accepted; an end came only after the last whole frame. */
  ghost predicate Sound(s: State, frame: nat)
    requires frame > 0
  {
    && |s.recorded| % frame == 0
    && (frame > CHUNK ==> s.recorded == [])
    && (s.finished ==> s.stopping)
    && if !s.finished then s.accepted == s.recorded + s.queue
       else s.queue == [] && s.recorded <= s.accepted && Tail(|s.accepted| - |s.recorded|, frame)
  }

  /** Too little for the consumer to take any of it. */
  predicate Tail(n: nat, frame: nat)
    requires frame > 0
  {
    Portion(n, frame) == 0
  }

  lemma WholeSum(a: nat, b: nat, frame: nat)
    requires frame > 0 && a % frame == 0 && b % frame == 0
    ensures (a + b) % frame == 0
  {
    var p, q := a / frame, b / frame;
    assert a == p * frame && b == q * frame;
    assert a + b == (p + q) * frame;
    Arithmetic.QuotientIs(a + b, p + q, frame);
  }

  lemma PortionWhole(n: nat, frame: nat)
    requires frame > 0
    ensures Portion(n, frame) % frame == 0 && (frame > CHUNK ==> Portion(n, frame) == 0)
  {
    var m := if n < CHUNK then n else CHUNK;
    var q := m / frame;
    assert m == q * frame + m % frame;
    Arithmetic.QuotientIs(q * frame, q, frame);
    if frame > CHUNK {
      Arithmetic.QuotientIs(m, 0, frame);
    }
  }

  lemma StepSound(s: State, op: Section, size: nat, frame: nat)
    requires frame > 0 && Sound(s, frame)
    ensures Sound(Step(s, op, size, frame), frame)
  {
    match op
    case Write(data) =>
      if s.finished { } else { assert s.recorded + (s.queue + data) == s.recorded + s.queue + data; }
    case Consume =>
      var got := Portion(|s.queue|, frame);
      PortionWhole(|s.queue|, frame);
      WholeSum(|s.recorded|, got, frame);
      assert s.recorded + s.queue == s.recorded + s.queue[..got] + s.queue[got..];
    case Stop =>
  }

  /** Under every interleaving the recording is a prefix of the accepted writes, in whole sample frames. */
  lemma {:induction false} RecordingIsPrefix(s: State, ops: seq<Section>, size: nat, frame: nat)
    requires frame > 0 && Sound(s, frame)
    ensures Sound(Run(s, ops, size, frame), frame)
    ensures var r := Run(s, ops, size, frame); r.recorded <= r.accepted && |r.recorded| % frame == 0
    decreases |ops|
  {
    if ops != [] {
      StepSound(s, ops[0], size, frame);
      RecordingIsPrefix(Step(s, ops[0], size, frame), ops[1..], size, frame);
    }
  }

  /** A stopped recorder has lost exactly the incomplete last frame, unless its frames are larger than the
      consumer's chunk, which then never takes anything at all. */
  lemma StopLosesOnlyTail(ops: seq<Section>, size: nat, frame: nat)
    requires frame > 0 && Run(Idle, ops, size, frame).finished
    ensures var r := Run(Idle, ops, size, frame);
            |r.accepted| - |r.recorded| == |r.accepted| % frame <==> frame <= CHUNK || |r.accepted| < frame
  {
    RecordingIsPrefix(Idle, ops, size, frame);
    var r := Run(Idle, ops, size, frame);
    LossExact(|r.accepted|, |r.recorded|, frame);
  }

  lemma LossExact(accepted: nat, recorded: nat, frame: nat)
    requires frame > 0 && recorded <= accepted && recorded % frame == 0
    requires Tail(accepted - recorded, frame) && (frame > CHUNK ==> recorded == 0)
    ensures accepted - recorded == accepted % frame <==> frame <= CHUNK || accepted < frame
  {
    var p := recorded / frame;
    assert recorded == p * frame;
    if frame <= CHUNK {
      TailIsShort(accepted - recorded, frame);
      Arithmetic.QuotientIs(accepted, p, frame);
    }
  }

  lemma TailIsShort(n: nat, frame: nat)
    requires 0 < frame <= CHUNK && Tail(n, frame)
    ensures n < frame
  {
    var m := if n < CHUNK then n else CHUNK;
    assert m == m % frame;
  }

  /** Once stopped, the consumer finishes: every turn takes something or ends the recording. */
  lemma {:induction false} StopFinishes(s: State, size: nat, frame: nat, turns: seq<Section>)
    requires frame > 0 && s.stopping && |turns| > |s.queue|
    requires forall i :: 0 <= i < |turns| ==> turns[i] == Consume
    ensures Run(s, turns, size, frame).finished
    decreases |turns|
  {
    var next := Step(s, Consume, size, frame);
    if next.finished {
      FinishedStays(next, size, frame, turns[1..]);
    } else {
      StopFinishes(next, size, frame, turns[1..]);
    }
  }

  lemma {:induction false} FinishedStays(s: State, size: nat, frame: nat, ops: seq<Section>)
    requires frame > 0 && s.finished
    ensures Run(s, ops, size, frame).finished
    decreases |ops|
  {
    if ops != [] {
      FinishedStays(Step(s, ops[0], size, frame), size, frame, ops[1..]);
    }
  }

  /** A turn of the consumer takes what is queued, but no more than 8192 bytes, down to whole frames. */
  lemma ConsumeTakes(s: State, size: nat, frame: nat) returns (n: nat)
    requires 0 < frame <= 8192 && !s.finished && |s.queue| >= frame
    ensures var most := if |s.queue| < 8192 then |s.queue| else 8192;
            var t := Step(s, Consume, size, frame);
            && 0 < n <= most && n % frame == 0 && most - n < frame
            && t == s.(queue := s.queue[n..], recorded := s.recorded + s.queue[..n])
  {
    n := Portion(|s.queue|, frame);
    PortionWhole(|s.queue|, frame);
    if n == 0 {
      TailIsShort(|s.queue|, frame);
    }
  }

  /** A write is taken whole exactly if there is room for it; nothing that fits is turned away while recording. */
  lemma WriteFits(s: State, data: seq<Byte>, size: nat, frame: nat)
    requires frame > 0 && !s.stopping
    ensures var t := Step(s, Write(data), size, frame);
            t == if |s.queue| + |data| <= size then s.(queue := s.queue + data, accepted := s.accepted + data) else s
  {
    assert s.queue + [] == s.queue && s.accepted + [] == s.accepted;
  }

  function Writes(data: seq<seq<Byte>>): (r: seq<Section>)
    ensures |r| == |data| && forall i :: 0 <= i < |r| ==> r[i] == Write(data[i])
  {
    seq(|data|, i requires 0 <= i < |data| => Write(data[i]))
  }

  lemma {:induction false} RunSplits(s: State, a: seq<Section>, b: seq<Section>, size: nat, frame: nat)
    requires frame > 0
    ensures Run(s, a + b, size, frame) == Run(Run(s, a, size, frame), b, size, frame)
    decreases |a|
  {
    if a == [] {
      assert a + b == b;
    } else {
      assert (a + b)[1..] == a[1..] + b;
      RunSplits(Step(s, a[0], size, frame), a[1..], b, size, frame);
    }
  }

  lemma {:induction false} WritesQueue(s: State, data: seq<seq<Byte>>, size: nat, frame: nat)
    requires frame > 0 && !s.stopping && |s.queue| + |Joined(data)| <= size
    ensures Run(s, Writes(data), size, frame) == s.(queue := s.queue + Joined(data), accepted := s.accepted + Joined(data))
    decreases |data|
  {
    if data == [] {
      assert s.queue + [] == s.queue && s.accepted + [] == s.accepted;
    } else {
      WriteFits(s, data[0], size, frame);
      assert Writes(data)[1..] == Writes(data[1..]);
      WritesQueue(Step(s, Write(data[0]), size, frame), data[1..], size, frame);
      JoinThree(s.queue, data[0], Joined(data[1..]));
      JoinThree(s.accepted, data[0], Joined(data[1..]));
    }
  }

  lemma {:induction false} ConsumingAccepts(s: State, turns: seq<Section>, size: nat, frame: nat)
    requires frame > 0 && s.stopping && forall i :: 0 <= i < |turns| ==> turns[i] == Consume
    ensures Run(s, turns, size, frame).accepted == s.accepted
    decreases |turns|
  {
    if turns != [] {
      ConsumingAccepts(Step(s, turns[0], size, frame), turns[1..], size, frame);
    }
  }

  /** A whole recording that fits the ring: after the stop and enough turns of the consumer, what was recorded is
      everything that was written, but for an incomplete last frame. */
  lemma RecordsEverything(data: seq<seq<Byte>>, turns: seq<Section>, size: nat, frame: nat)
    requires 0 < frame <= CHUNK && |Joined(data)| <= size && |turns| > |Joined(data)|
    requires forall i :: 0 <= i < |turns| ==> turns[i] == Consume
    ensures var r := Run(Idle, Writes(data) + ([Stop] + turns), size, frame);
            && r.finished && r.accepted == Joined(data) && r.recorded <= Joined(data)
            && |Joined(data)| - |r.recorded| == |Joined(data)| % frame
  {
    var ops := Writes(data) + ([Stop] + turns);
    RunSplits(Idle, Writes(data), [Stop] + turns, size, frame);
    WritesQueue(Idle, data, size, frame);
    assert [] + Joined(data) == Joined(data);
    var full := Idle.(queue := Joined(data), accepted := Joined(data));
    assert ([Stop] + turns)[1..] == turns;
    var stopped := full.(stopping := true);
    assert Run(full, [Stop] + turns, size, frame) == Run(stopped, turns, size, frame);
    StopFinishes(stopped, size, frame, turns);
    ConsumingAccepts(stopped, turns, size, frame);
    StopLosesOnlyTail(ops, size, frame);
    RecordingIsPrefix(Idle, ops, size, frame);
  }

  // ---------------------------------------------------------------- the ring object

  class Ring {
    const ring: array<Byte>
    const frame: nat
    var readPos: nat
    var writePos: nat
    var used: nat
    var stopping: bool
    ghost var now: State  // what the ring stands for

    ghost predicate Valid()
      reads this, ring
    {
      && 0 < ring.Length && 0 < frame && readPos < ring.Length && used <= ring.Length
      && (now.finished ==> stopping)
      && (!now.finished ==> writePos == Rings.Slot(ring.Length, readPos, used))
      && now.queue == Rings.Queue(ring[..], readPos, used) && now.stopping == stopping
    }

    constructor (size: nat, frameBytes: nat)
      requires size > 0 && frameBytes > 0
      ensures Valid() && fresh(ring) && ring.Length == size && frame == frameBytes && now == Idle
    {
      ring := new Byte[size](_ => 0);
      frame := frameBytes;
      readPos, writePos, used, stopping, now := 0, 0, 0, false, Idle;
    }

    /** The writer's section: data goes in whole or not at all. */
    method Write(data: seq<Byte>)
      requires Valid() && !stopping
      modifies this, ring
      ensures Valid() && now == Step(old(now), Section.Write(data), ring.Length, frame)
    {
      if data == [] || |data| > ring.Length - used {
        return;
      }
      Rings.AppendNewest(ring[..], readPos, used, data);
      Rings.Append(ring, writePos, data);
      WriterAdvances(ring.Length, readPos, used, |data|);
      writePos := (writePos + |data|) % ring.Length;
      used := used + |data|;
      now := Step(now, Section.Write(data), ring.Length, frame);
    }

    /** The consumer's section: the next whole frames, or word that the recording has ended. */
    method Take() returns (chunk: seq<Byte>, end: bool)
      requires Valid() && !now.finished
      modifies this
      ensures Valid() && now == Step(old(now), Consume, ring.Length, frame)
      ensures now.recorded == old(now).recorded + chunk && end == now.finished
    {
      chunk, end := [], false;
      if used == 0 {
        end := stopping;
        now := Step(now, Consume, ring.Length, frame);
        return;
      }
      var got := if used < CHUNK then used else CHUNK;
      got := got - got % frame;
      assert got == Portion(|now.queue|, frame);
      if got == 0 {
        if stopping {
          used, end := 0, true;
        }
        now := Step(now, Consume, ring.Length, frame);
        return;
      }
      chunk := CopyOut(got);
      Remove(got);
      now := now.(recorded := now.recorded + chunk);
    }

    method Remove(got: nat)
      requires Valid() && got <= used && !now.finished
      modifies this
      ensures Valid() && now == old(now).(queue := old(now).queue[got..])
    {
      ReaderAdvances(ring[..], readPos, used, got);
      readPos := (readPos + got) % ring.Length;
      used := used - got;
      now := now.(queue := now.queue[got..]);
    }

    /** The oldest bytes, from the read position to the end of the ring and then from its front. */
    method CopyOut(got: nat) returns (chunk: seq<Byte>)
      requires Valid() && got <= used
      ensures chunk == now.queue[..got]
    {
      var first := ring.Length - readPos;
      if first > got {
        first := got;
      }
      chunk := ring[readPos..readPos + first];
      if got > first {
        chunk := chunk + ring[..got - first];
      }
    }

    method Stop()
      requires Valid()
      modifies this
      ensures Valid() && now == Step(old(now), Section.Stop, ring.Length, frame)
    {
      stopping := true;
      now := Step(now, Section.Stop, ring.Length, frame);
    }
  }

  lemma ReaderAdvances(ring: seq<Byte>, read: nat, used: nat, got: nat)
    requires read < |ring| && got <= used <= |ring|
    ensures var next := (read + got) % |ring|;
            && next < |ring| && Rings.Slot(|ring|, next, used - got) == Rings.Slot(|ring|, read, used)
            && Rings.Queue(ring, next, used - got) == Rings.Queue(ring, read, used)[got..]
  {
    assert (read + got) % |ring| == Rings.Slot(|ring|, read, got);
    Rings.DropOldest(ring, read, used, got);
    if used - got < |ring| {
      Rings.SlotShift(|ring|, read, got, used - got);
    }
  }

  lemma WriterAdvances(size: nat, read: nat, used: nat, n: nat)
    requires read < size && used + n <= size
    ensures (Rings.Slot(size, read, used) + n) % size == Rings.Slot(size, read, used + n)
  {
    assert (Rings.Slot(size, read, used) + n) % size == Rings.Slot(size, Rings.Slot(size, read, used), n);
    if n < size {
      Rings.SlotShift(size, read, used, n);
    }
  }
}
