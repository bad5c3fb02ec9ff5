/** The engine's objects: each stream keeps its samples in a wrapped ring, and the
    mixer updates rings, flags and counters in place. */
module AudioMixer {
  import opened AudioStream
  import opened AudioEngine
  import Rings

  class StreamBuffer {
    const id: string
    const samples: array<Sample>
    var route: char
    var head: nat
    var count: nat
    var primed: bool
    var everPrimed: bool
    var starved: bool
    var fadeIn: nat

    ghost var now: Stream  // the stream this object stands for

    ghost predicate Valid()
      reads this, samples
    {
      && samples.Length == CAPACITY && head < CAPACITY && count <= MAX_QUEUED
      && now == Stream(id, route, Rings.Queue(samples[..], head, count), primed, everPrimed, starved, fadeIn)
    }

    constructor (name: string)
      ensures Valid() && now == Fresh(name) && fresh(samples)
    {
      id := name;
      samples := new Sample[CAPACITY](_ => 0);
      route, head, count := 'S', 0, 0;
      primed, everPrimed, starved, fadeIn := false, false, false, 0;
      now := Fresh(name);
    }

    /** Appends to the ring, dropping the oldest samples beyond the ceiling; says how many were dropped. */
    method Push(pcm: seq<Sample>) returns (dropped: nat)
      requires Valid()
      modifies this, samples
      ensures Valid() && now == Pushed(old(now), pcm)
      ensures dropped == Dropped(old(now), pcm)
    {
      ghost var was := now.queue;
      var kept := pcm;
      dropped := 0;
      if |pcm| >= MAX_QUEUED {
        dropped := count + |pcm| - MAX_QUEUED;
        kept := pcm[|pcm| - MAX_QUEUED..];
        head, count := 0, 0;
        now := now.(queue := []);
      } else if count + |pcm| > MAX_QUEUED {
        dropped := count + |pcm| - MAX_QUEUED;
        Discard(dropped);
      }
      assert now.queue + kept == TakeLast(was + pcm, MAX_QUEUED);
      Append(kept);
    }

    method Discard(n: nat)
      requires Valid() && n <= count
      modifies this`head, this`count, this`now
      ensures Valid() && now == old(now).(queue := old(now).queue[n..])
    {
      Rings.DropOldest(samples[..], head, count, n);
      assert (head + n) % CAPACITY == Rings.Slot(CAPACITY, head, n);
      head := (head + n) % CAPACITY;
      count := count - n;
      now := now.(queue := now.queue[n..]);
    }

    method Append(pcm: seq<Sample>)
      requires Valid() && count + |pcm| <= MAX_QUEUED
      modifies this`count, this`now, samples
      ensures Valid() && now == old(now).(queue := old(now).queue + pcm)
    {
      Rings.AppendNewest(samples[..], head, count, pcm);
      assert (head + count) % CAPACITY == Rings.Slot(CAPACITY, head, count);
      Rings.Append(samples, (head + count) % CAPACITY, pcm);
      count := count + |pcm|;
      now := now.(queue := now.queue + pcm);
    }

    method Reroute(r: char)
      requires Valid()
      modifies this
      ensures Valid() && now == Rerouted(old(now), r)
    {
      route := r;
      count, head := 0, 0;
      primed, everPrimed, starved, fadeIn := false, false, false, 0;
      now := Rerouted(now, r);
    }
  }

  /** The buffers stand for the given streams and share no storage. */
  ghost predicate Represent(buffers: seq<StreamBuffer>, streams: seq<Stream>)
    reads buffers, set b | b in buffers :: b.samples
  {
    && |buffers| == |streams|
    && (forall i :: 0 <= i < |buffers| ==> buffers[i].Valid() && buffers[i].now == streams[i])
    && (forall i, j :: 0 <= i < j < |buffers| ==> buffers[i] != buffers[j] && buffers[i].samples != buffers[j].samples)
  }

  lemma RemoveRepresents(buffers: seq<StreamBuffer>, streams: seq<Stream>, i: nat)
    requires Represent(buffers, streams) && i < |buffers|
    ensures Represent(buffers[..i] + buffers[i + 1..], streams[..i] + streams[i + 1..])
  {
  }

  lemma AddRepresents(b: StreamBuffer, buffers: seq<StreamBuffer>, streams: seq<Stream>)
    requires Represent(buffers, streams) && b.Valid()
    requires forall c :: c in buffers ==> c != b && c.samples != b.samples
    ensures Represent([b] + buffers, [b.now] + streams)
  {
  }

  lemma RemoveApplied(e: Engine, id: string)
    ensures var i := Find(e.streams, id);
            Apply(e, RemoveStream(id)) == if i < 0 then e else e.(streams := e.streams[..i] + e.streams[i + 1..])
  {
  }

  function FadeLeft(fade: nat, k: nat): nat {
    if fade > k then fade - k else 0
  }

  lemma AddedNothing(block: seq<int>, s: Stream)
    ensures !Plays(s) ==> Added(block, s) == block
  {
  }

  ghost predicate AnyUnmuted(streams: seq<Stream>) {
    exists s :: s in streams && s.route != 'M'
  }

  /** A tick that has gone through the first n streams: what it left, counted, summed and heard. */
  ghost predicate Partly(before: Engine, n: nat, streams: seq<Stream>, stats: Stats, accum: seq<int>, active: bool)
  {
    && n <= |before.streams|
    && streams == TickAll(before.streams)[..n] + before.streams[n..]
    && stats == CountAll(before.stats, before.streams[..n])
    && accum == Mixed(before.streams[..n])
    && (active <==> AnyUnmuted(before.streams[..n]))
  }

  lemma PartlyBegins(e: Engine)
    ensures Partly(e, 0, e.streams, e.stats, Mixed([]), false)
  {
    assert e.streams[..0] == [] && TickAll(e.streams)[..0] == [];
  }

  lemma PartlyStep(e: Engine, n: nat, streams: seq<Stream>, stats: Stats, accum: seq<int>, active: bool)
    requires n < |e.streams| && Partly(e, n, streams, stats, accum, active)
    ensures streams[n] == e.streams[n]
    ensures Partly(e, n + 1, streams[n := Ticked(streams[n])], Counted(stats, streams[n]), Added(accum, streams[n]),
                   active || streams[n].route != 'M')
  {
    var before := e.streams;
    assert before[..n + 1][..n] == before[..n] && before[..n + 1] == before[..n] + [before[n]];
  }

  /** What a tick has done so far. */
  datatype Stage = Stage(streams: seq<Stream>, stats: Stats, accum: seq<int>, active: bool)

  predicate Stands(streams: seq<Stream>, stats: Stats, accum: seq<int>, active: bool, stage: Stage) {
    streams == stage.streams && stats == stage.stats && accum == stage.accum && active == stage.active
  }

  function Advanced(s: Stage, n: nat): (r: Stage)
    requires n < |s.streams|
    ensures |r.streams| == |s.streams|
  {
    Stage(s.streams[n := Ticked(s.streams[n])], Counted(s.stats, s.streams[n]), Added(s.accum, s.streams[n]),
          s.active || s.streams[n].route != 'M')
  }

  /** One stage for every number of streams gone through. */
  ghost predicate Chained(stages: seq<Stage>) {
    forall n {:trigger Advanced(stages[n], n)} :: 0 <= n < |stages| - 1 ==>
      n < |stages[n].streams| && stages[n + 1] == Advanced(stages[n], n)
  }

  function Staged(e: Engine, n: nat): (s: Stage)
    requires n <= |e.streams|
    ensures |s.streams| == |e.streams|
  {
    if n == 0 then Stage(e.streams, e.stats, Mixed([]), false) else Advanced(Staged(e, n - 1), n - 1)
  }

  lemma {:induction false} StagedIsPartly(e: Engine, n: nat)
    requires n <= |e.streams|
    ensures var s := Staged(e, n); Partly(e, n, s.streams, s.stats, s.accum, s.active)
  {
    if n == 0 {
      PartlyBegins(e);
    } else {
      var s := Staged(e, n - 1);
      StagedIsPartly(e, n - 1);
      PartlyStep(e, n - 1, s.streams, s.stats, s.accum, s.active);
    }
  }

  lemma StagesOf(e: Engine) returns (stages: seq<Stage>)
    ensures |stages| == |e.streams| + 1 && Chained(stages)
    ensures stages[0] == Stage(e.streams, e.stats, Mixed([]), false)
    ensures stages[|e.streams|] == Staged(e, |e.streams|)
  {
    stages := seq(|e.streams| + 1, n requires 0 <= n <= |e.streams| => Staged(e, n));
  }

  lemma PartlyEnds(e: Engine, streams: seq<Stream>, stats: Stats, accum: seq<int>, active: bool)
    requires Partly(e, |e.streams|, streams, stats, accum, active)
    ensures Apply(e, Tick) == e.(streams := streams, stats := stats.(blocks := stats.blocks + 1))
    ensures accum == Mixed(e.streams) && (active <==> AnyUnmuted(e.streams))
  {
    assert e.streams[..|e.streams|] == e.streams;
  }

  lemma StagesEnd(e: Engine, s: Stage)
    requires s == Staged(e, |e.streams|)
    ensures Apply(e, Tick) == e.(streams := s.streams, stats := s.stats.(blocks := s.stats.blocks + 1))
    ensures s.accum == Mixed(e.streams) && (s.active <==> AnyUnmuted(e.streams))
  {
    StagedIsPartly(e, |e.streams|);
    PartlyEnds(e, s.streams, s.stats, s.accum, s.active);
  }

  class Mixer {
    var buffers: seq<StreamBuffer>
    var stats: Stats
    var left: int
    var right: int
    ghost var streams: seq<Stream>  // what the buffers stand for

    ghost predicate Valid()
      reads this, buffers, set b | b in buffers :: b.samples
    {
      Represent(buffers, streams)
    }

    ghost function View(): Engine
      reads this
    {
      Engine(streams, stats, left, right)
    }

    constructor ()
      ensures Valid() && View() == Engine([], NoStats, 100, 100)
    {
      buffers, streams, stats, left, right := [], [], NoStats, 100, 100;
    }

    method FindStream(id: string) returns (i: int)
      requires Valid()
      ensures i == Find(streams, id)
    {
      i := 0;
      while i < |buffers|
        invariant 0 <= i <= |buffers|
        invariant Find(streams, id) == if Find(streams[i..], id) < 0 then -1 else i + Find(streams[i..], id)
      {
        assert streams[i..][0] == streams[i] && streams[i..][1..] == streams[i + 1..];
        assert buffers[i].Valid();
        if buffers[i].id == id {
          return;
        }
        i := i + 1;
      }
      i := -1;
    }

    method AddStream(id: string) returns (ok: bool)
      requires Valid()
      modifies this
      ensures Valid() && View() == Apply(old(View()), Op.AddStream(id))
      ensures ok <==> id != ""
    {
      if id == "" {
        return false;
      }
      var present := FindStream(id);
      if present < 0 {
        var b := new StreamBuffer(id);
        AddRepresents(b, buffers, streams);
        buffers, streams := [b] + buffers, [b.now] + streams;
      }
      return true;
    }

    method RemoveStream(id: string)
      requires Valid()
      modifies this
      ensures Valid() && View() == Apply(old(View()), Op.RemoveStream(id))
    {
      RemoveApplied(View(), id);
      var i := FindStream(id);
      if i >= 0 {
        RemoveRepresents(buffers, streams, i);
        buffers, streams := buffers[..i] + buffers[i + 1..], streams[..i] + streams[i + 1..];
      }
    }

    method Push(id: string, pcm: seq<Sample>) returns (ok: bool)
      requires Valid()
      modifies this, buffers, set b | b in buffers :: b.samples
      ensures Valid() && View() == Apply(old(View()), Op.Push(id, pcm))
      ensures ok <==> pcm != [] && Find(old(streams), id) >= 0
    {
      if pcm == [] {
        return false;
      }
      var i := FindStream(id);
      if i < 0 {
        return false;
      }
      PushInto(i, pcm);
      return true;
    }

    method PushInto(i: nat, pcm: seq<Sample>)
      requires Valid() && i < |buffers|
      modifies this`stats, this`streams, buffers[i], buffers[i].samples
      ensures Valid() && streams == old(streams)[i := Pushed(old(streams)[i], pcm)]
      ensures stats == CountPush(old(stats), old(streams)[i], pcm)
    {
      var dropped := buffers[i].Push(pcm);
      stats := stats.(pushCalls := stats.pushCalls + 1, pushedSamples := stats.pushedSamples + |pcm|,
                      maxPush := Max(stats.maxPush, |pcm|), overflow := stats.overflow + dropped,
                      maxQueued := Max(stats.maxQueued, buffers[i].count));
      streams := streams[i := Pushed(streams[i], pcm)];
    }

    method Route(id: string, route: char) returns (ok: bool)
      requires Valid()
      modifies this, buffers
      ensures Valid() && View() == Apply(old(View()), Op.Route(id, route))
      ensures ok <==> route in ROUTES + "\0" && Find(old(streams), id) >= 0
    {
      if route !in ROUTES + "\0" {
        return false;
      }
      var i := FindStream(id);
      if i < 0 {
        return false;
      }
      buffers[i].Reroute(route);
      streams := streams[i := Rerouted(streams[i], route)];
      return true;
    }

    method Snapshot(reset: bool) returns (out: Stats)
      requires Valid()
      modifies this`stats
      ensures Valid() && out == old(stats)
      ensures View() == if reset then Apply(old(View()), ResetStats) else old(View())
    {
      out := stats;
      if reset {
        stats := NoStats;
      }
    }

    method Gain(channel: nat, percent: int)
      requires Valid()
      modifies this`left, this`right
      ensures Valid() && View() == Apply(old(View()), Op.Gain(channel, percent))
    {
      if channel == 0 {
        left := Clamp(percent, 0, 100);
      } else if channel == 1 {
        right := Clamp(percent, 0, 100);
      }
    }

    /** One 20 ms tick: takes a block from every stream and mixes them into an interleaved stereo block. */
    method Tick(stereo: array<Sample>) returns (active: bool)
      requires Valid() && stereo.Length == 2 * BLOCK
      requires forall b :: b in buffers ==> b.samples != stereo
      modifies this, buffers, stereo
      ensures Valid() && View() == Apply(old(View()), Op.Tick)
      ensures forall i :: 0 <= i < 2 * BLOCK ==> stereo[i] == Output(old(View()), i)
      ensures active <==> AnyUnmuted(old(streams))
    {
      ghost var e := View();
      var accum := Silence();
      active := LockedTick(accum);
      Emit(e, accum, stereo, left, right);
    }

    /** A block of zeros for the sums of a tick. */
    static method Silence() returns (accum: array<int>)
      ensures fresh(accum) && accum.Length == 2 * BLOCK && accum[..] == Mixed([])
    {
      accum := new int[2 * BLOCK](_ => 0);
    }

    /** The sums after gain. */
    static method Emit(ghost e: Engine, accum: array<int>, stereo: array<Sample>, left: int, right: int)
      requires accum.Length == stereo.Length == 2 * BLOCK && accum as object != stereo
      requires accum[..] == Mixed(e.streams) && left == e.left && right == e.right
      modifies stereo
      ensures forall i :: 0 <= i < 2 * BLOCK ==> stereo[i] == Output(e, i)
    {
      Scale(accum, Mixed(e.streams), stereo, left, right);
    }

    /** The part of a tick that runs under the lock. */
    method LockedTick(accum: array<int>) returns (active: bool)
      requires Valid() && accum.Length == 2 * BLOCK && accum[..] == Mixed([])
      requires forall b :: b in buffers ==> b.samples as object != accum
      modifies this`stats, this`streams, buffers, accum
      ensures Valid() && View() == Apply(old(View()), Op.Tick)
      ensures accum[..] == Mixed(old(streams)) && (active <==> AnyUnmuted(old(streams)))
    {
      ghost var stages := StagesOf(View());
      StagesEnd(View(), stages[|buffers|]);
      active := MixAll(stages, accum);
    }

    method MixAll(ghost stages: seq<Stage>, accum: array<int>) returns (active: bool)
      requires Valid() && |stages| == |streams| + 1 && Chained(stages)
      requires accum.Length == 2 * BLOCK && Stands(streams, stats, accum[..], false, stages[0])
      requires forall b :: b in buffers ==> b.samples as object != accum
      modifies this`stats, this`streams, buffers, accum
      ensures var last := stages[|stages| - 1];
              && Valid() && accum[..] == last.accum && active == last.active
              && View() == old(View()).(streams := last.streams, stats := last.stats.(blocks := last.stats.blocks + 1))
    {
      active := MixStreams(stages, accum);
      stats := stats.(blocks := stats.blocks + 1);
    }

    method MixStreams(ghost stages: seq<Stage>, accum: array<int>) returns (active: bool)
      requires Valid() && |stages| == |streams| + 1 && Chained(stages)
      requires accum.Length == 2 * BLOCK && Stands(streams, stats, accum[..], false, stages[0])
      requires forall b :: b in buffers ==> b.samples as object != accum
      modifies this`stats, this`streams, buffers, accum
      ensures Valid() && Stands(streams, stats, accum[..], active, stages[|stages| - 1])
    {
      active := false;
      for n := 0 to |buffers|
        invariant Valid() && Stands(streams, stats, accum[..], active, stages[n])
      {
        active := MixNext(stages, n, accum, active);
      }
    }

    method MixNext(ghost stages: seq<Stage>, n: nat, accum: array<int>, active: bool) returns (still: bool)
      requires Valid() && n < |buffers| == |stages| - 1 && accum.Length == 2 * BLOCK
      requires forall b :: b in buffers ==> b.samples as object != accum
      requires Chained(stages) && Stands(streams, stats, accum[..], active, stages[n])
      modifies this`stats, this`streams, buffers, accum
      ensures Valid() && Stands(streams, stats, accum[..], still, stages[n + 1])
    {
      assert stages[n + 1] == Advanced(stages[n], n);
      var sounds := MixOne(n, accum);
      still := active || sounds;
    }

    method MixOne(n: nat, accum: array<int>) returns (sounds: bool)
      requires Valid() && n < |buffers| && accum.Length == 2 * BLOCK
      requires forall b :: b in buffers ==> b.samples as object != accum
      modifies this`stats, this`streams, buffers, accum
      ensures Valid() && streams == old(streams)[n := Ticked(old(streams)[n])]
      ensures stats == Counted(old(stats), old(streams)[n])
      ensures accum[..] == Added(old(accum[..]), old(streams)[n]) && sounds == (old(streams)[n].route != 'M')
    {
      sounds := buffers[n].route != 'M';
      TickStream(buffers[n], accum);
      streams := streams[n := Ticked(streams[n])];
    }

    static method Scale(accum: array<int>, ghost sums: seq<int>, stereo: array<Sample>, left: int, right: int)
      requires accum.Length == stereo.Length == 2 * BLOCK && accum as object != stereo && accum[..] == sums
      modifies stereo
      ensures forall i :: 0 <= i < 2 * BLOCK ==> stereo[i] == Scaled(sums[i], if i % 2 == LEFT then left else right)
    {
      for i := 0 to 2 * BLOCK
        invariant accum[..] == sums
        invariant forall k :: 0 <= k < i ==> stereo[k] == Scaled(sums[k], if k % 2 == LEFT then left else right)
      {
        stereo[i] := Scaled(accum[i], if i % 2 == LEFT then left else right);
      }
    }

    /** What one tick does for one stream: the state machine, its counters and its share of the mix. */
    method TickStream(s: StreamBuffer, accum: array<int>)
      requires s.Valid() && accum.Length == 2 * BLOCK && accum as object != s.samples
      modifies this`stats, s, accum
      ensures s.Valid() && s.now == Ticked(old(s.now)) && stats == Counted(old(stats), old(s.now))
      ensures accum[..] == Added(old(accum[..]), old(s.now))
    {
      AddedNothing(accum[..], s.now);
      if s.route == 'M' {
        s.count, s.head := 0, 0;
        s.primed, s.everPrimed, s.starved := false, false, false;
        s.now := Silenced(s.now);
      } else if !s.primed && s.count < PREFILL {
        Wait(s);
      } else {
        Play(s, accum);
      }
    }

    method Wait(s: StreamBuffer)
      requires s.Valid() && s.now.route != 'M' && !Plays(s.now)
      modifies this`stats, s
      ensures s.Valid() && s.now == Ticked(old(s.now)) && stats == Counted(old(stats), old(s.now))
    {
      if s.everPrimed {
        stats := stats.(underruns := stats.underruns + 1, rebuffers := stats.rebuffers + 1,
                        starvations := stats.starvations + Count(!s.starved));
        s.starved := true;
        s.now := s.now.(starved := true);
      } else {
        stats := stats.(startups := stats.startups + 1);
      }
    }

    method Play(s: StreamBuffer, accum: array<int>)
      requires s.Valid() && Plays(s.now) && accum.Length == 2 * BLOCK && accum as object != s.samples
      modifies this`stats, s, accum
      ensures s.Valid() && s.now == Ticked(old(s.now)) && stats == Counted(old(stats), old(s.now))
      ensures accum[..] == Added(old(accum[..]), old(s.now))
    {
      ghost var before := s.now;
      if !s.primed {
        s.primed, s.everPrimed, s.starved, s.fadeIn := true, true, false, FADE;
      }
      var take := Min(s.count, BLOCK);
      MixSamples(s, accum, take, before);
      if take < BLOCK {
        stats := stats.(underruns := stats.underruns + 1, starvations := stats.starvations + Count(!s.starved));
        s.starved, s.primed := true, false;
      }
      s.now := before.(primed := s.primed, everPrimed := s.everPrimed, starved := s.starved, fadeIn := s.fadeIn);
      s.Discard(take);
    }

    method MixSamples(s: StreamBuffer, accum: array<int>, take: nat, ghost before: Stream)
      requires s.samples.Length == CAPACITY && s.head < CAPACITY && take <= s.count <= MAX_QUEUED
      requires accum.Length == 2 * BLOCK && accum as object != s.samples
      requires before.queue == Rings.Queue(s.samples[..], s.head, s.count) && before.route == s.route
      requires take == Taken(before) <= BLOCK && s.fadeIn == Primed(before).fadeIn
      modifies s`fadeIn, accum
      ensures s.fadeIn == FadeLeft(old(s.fadeIn), take)
      ensures accum[..] == Added(old(accum[..]), before)
    {
      for k := 0 to take
        invariant s.fadeIn == FadeLeft(old(s.fadeIn), k)
        invariant forall i :: 0 <= i < 2 * BLOCK ==>
          accum[i] == old(accum[i]) + if i < 2 * k then Heard(before, i / 2, i % 2) else 0
      {
        var sample := NextSample(s, k, take, before);
        AddSample(accum, k, sample, s.route);
      }
    }

    method NextSample(s: StreamBuffer, k: nat, take: nat, ghost before: Stream) returns (sample: int)
      requires s.samples.Length == CAPACITY && s.head < CAPACITY && take <= s.count <= MAX_QUEUED
      requires before.queue == Rings.Queue(s.samples[..], s.head, s.count)
      requires k < take == Taken(before) && s.fadeIn == FadeLeft(Primed(before).fadeIn, k)
      modifies s`fadeIn
      ensures sample == Faded(before, k) && s.fadeIn == FadeLeft(Primed(before).fadeIn, k + 1)
    {
      assert (s.head + k) % CAPACITY == Rings.Slot(CAPACITY, s.head, k);
      sample := s.samples[(s.head + k) % CAPACITY];
      assert sample == before.queue[k];
      if s.fadeIn > 0 {
        sample := Quotient(sample * (FADE as int - s.fadeIn), FADE);
        s.fadeIn := s.fadeIn - 1;
      }
      if take < BLOCK && take > 1 && k >= take - Min(take, FADE) {
        sample := Quotient(sample * (take - k - 1), Min(take, FADE));
      }
    }

    method AddSample(accum: array<int>, k: nat, sample: int, route: char)
      requires accum.Length == 2 * BLOCK && k < BLOCK
      modifies accum
      ensures accum[2 * k] == old(accum[2 * k]) + if route != 'R' then sample else 0
      ensures accum[2 * k + 1] == old(accum[2 * k + 1]) + if route != 'L' then sample else 0
      ensures forall i :: 0 <= i < 2 * BLOCK && i / 2 != k ==> accum[i] == old(accum[i])
    {
      if route != 'R' {
        accum[2 * k] := accum[2 * k] + sample;
      }
      if route != 'L' {
        accum[2 * k + 1] := accum[2 * k + 1] + sample;
      }
    }
  }
}
