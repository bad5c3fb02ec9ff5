/** The client audio engine: streams mixed every 20 ms into one stereo block,
    with counters that account for every sample and every silence. */
module AudioEngine {
  import opened AudioStream

  const ROUTES := "LRSM"

  datatype Stats = Stats(blocks: nat, underruns: nat, overflow: nat, startups: nat, rebuffers: nat, starvations: nat,
                         pushCalls: nat, pushedSamples: nat, maxPush: nat, maxQueued: nat)

  const NoStats := Stats(0, 0, 0, 0, 0, 0, 0, 0, 0, 0)

  /** The whole engine as a value; gains are percentages. */
  datatype Engine = Engine(streams: seq<Stream>, stats: Stats, left: int, right: int)

  function Max(a: nat, b: nat): nat {
    if a >= b then a else b
  }

  function Clamp(x: int, low: int, high: int): (r: int)
    requires low <= high
    ensures low <= r <= high && (low <= x <= high ==> r == x)
  {
    if x < low then low else if x > high then high else x
  }

  // ---------------------------------------------------------------- one tick

  function TickAll(streams: seq<Stream>): (r: seq<Stream>)
    ensures |r| == |streams| && forall i :: 0 <= i < |r| ==> r[i] == Ticked(streams[i])
  {
    seq(|streams|, i requires 0 <= i < |streams| => Ticked(streams[i]))
  }

  function Count(b: bool): nat {
    if b then 1 else 0
  }

  function Counted(stats: Stats, s: Stream): Stats {
    stats.(underruns := stats.underruns + Count(Underruns(s)), startups := stats.startups + Count(StartsUp(s)),
           rebuffers := stats.rebuffers + Count(Rebuffers(s)), starvations := stats.starvations + Count(Starves(s)))
  }

  function CountAll(stats: Stats, streams: seq<Stream>): Stats
    decreases |streams|
  {
    if streams == [] then stats
    else Counted(CountAll(stats, streams[..|streams| - 1]), streams[|streams| - 1])
  }

  /** An interleaved stereo block with one more stream mixed in. */
  function Added(block: seq<int>, s: Stream): (r: seq<int>)
    ensures |r| == |block|
  {
    seq(|block|, i requires 0 <= i < |block| => block[i] + Heard(s, i / 2, i % 2))
  }

  /** The interleaved stereo block of one tick, summed over the streams before gain. */
  function Mixed(streams: seq<Stream>): (r: seq<int>)
    ensures |r| == 2 * BLOCK
    decreases |streams|
  {
    if streams == [] then seq(2 * BLOCK, _ => 0)
    else Added(Mixed(streams[..|streams| - 1]), streams[|streams| - 1])
  }

  /** A mixed sum after gain, clamped to a sample. */
  function Scaled(sum: int, percent: int): Sample {
    Clamp(Quotient(sum * percent, 100), -0x8000, 0x7fff)
  }

  function Output(e: Engine, i: nat): Sample
    requires i < 2 * BLOCK
  {
    Scaled(Mixed(e.streams)[i], if i % 2 == LEFT then e.left else e.right)
  }

  // ---------------------------------------------------------------- operations

  datatype Op =
    | AddStream(id: string)
    | RemoveStream(id: string)
    | Push(id: string, pcm: seq<Sample>)
    | Route(id: string, route: char)
    | Tick
    | ResetStats
    | Gain(channel: nat, percent: int)

  function Find(streams: seq<Stream>, id: string): (i: int)
    ensures -1 <= i < |streams|
    ensures i >= 0 ==> streams[i].id == id
    ensures i < 0 ==> forall k :: 0 <= k < |streams| ==> streams[k].id != id
    decreases |streams|
  {
    if streams == [] then -1
    else if streams[0].id == id then 0
    else
      var i := Find(streams[1..], id);
      assert forall k :: 1 <= k < |streams| ==> streams[k] == streams[1..][k - 1];
      if i < 0 then -1 else i + 1
  }

  function CountPush(stats: Stats, s: Stream, pcm: seq<Sample>): Stats {
    stats.(pushCalls := stats.pushCalls + 1, pushedSamples := stats.pushedSamples + |pcm|,
           maxPush := Max(stats.maxPush, |pcm|), overflow := stats.overflow + Dropped(s, pcm),
           maxQueued := Max(stats.maxQueued, |Pushed(s, pcm).queue|))
  }

  function StreamsAfter(streams: seq<Stream>, op: Op): seq<Stream> {
    match op
    case AddStream(id) => if id == "" || Find(streams, id) >= 0 then streams else [Fresh(id)] + streams
    case RemoveStream(id) =>
      var i := Find(streams, id);
      if i < 0 then streams else streams[..i] + streams[i + 1..]
    case Push(id, pcm) =>
      var i := Find(streams, id);
      if i < 0 || pcm == [] then streams else streams[i := Pushed(streams[i], pcm)]
    case Route(id, route) =>
      var i := Find(streams, id);
      if i < 0 || route !in ROUTES + "\0" then streams else streams[i := Rerouted(streams[i], route)]
    case Tick => TickAll(streams)
    case ResetStats => streams
    case Gain(_, _) => streams
  }

  function StatsAfter(stats: Stats, streams: seq<Stream>, op: Op): Stats {
    match op
    case Push(id, pcm) =>
      var i := Find(streams, id);
      if i < 0 || pcm == [] then stats else CountPush(stats, streams[i], pcm)
    case Tick =>
      var counted := CountAll(stats, streams);
      counted.(blocks := counted.blocks + 1)
    case ResetStats => NoStats
    case _ => stats
  }

  function Apply(e: Engine, op: Op): Engine {
    var f := e.(streams := StreamsAfter(e.streams, op), stats := StatsAfter(e.stats, e.streams, op));
    match op
    case Gain(channel, percent) =>
      if channel == 0 then f.(left := Clamp(percent, 0, 100))
      else if channel == 1 then f.(right := Clamp(percent, 0, 100))
      else f
    case _ => f
  }

  function Run(e: Engine, ops: seq<Op>): Engine
    decreases |ops|
  {
    if ops == [] then e else Run(Apply(e, ops[0]), ops[1..])
  }

  ghost predicate StreamsOk(streams: seq<Stream>) {
    && (forall i :: 0 <= i < |streams| ==> StreamOk(streams[i]))
    && (forall i, j :: 0 <= i < j < |streams| ==> streams[i].id != streams[j].id)
  }

  ghost predicate EngineOk(e: Engine) {
    StreamsOk(e.streams) && e.stats.underruns == e.stats.rebuffers + e.stats.starvations
  }

  /** The total of an amount over all streams. */
  function Sum(amount: Stream -> nat, streams: seq<Stream>): nat
    decreases |streams|
  {
    if streams == [] then 0 else amount(streams[0]) + Sum(amount, streams[1..])
  }

  lemma {:induction false} SumSplits(amount: Stream -> nat, a: seq<Stream>, b: seq<Stream>)
    ensures Sum(amount, a + b) == Sum(amount, a) + Sum(amount, b)
    decreases |a|
  {
    if a == [] {
      assert a + b == b;
    } else {
      assert (a + b)[1..] == a[1..] + b;
      SumSplits(amount, a[1..], b);
    }
  }

  lemma SumOne(amount: Stream -> nat, s: Stream)
    ensures Sum(amount, [s]) == amount(s)
  {
    assert [s][1..] == [];
  }

  lemma SumAdded(amount: Stream -> nat, s: Stream, streams: seq<Stream>)
    ensures Sum(amount, [s] + streams) == amount(s) + Sum(amount, streams)
  {
    SumSplits(amount, [s], streams);
    SumOne(amount, s);
  }

  lemma SumAround(amount: Stream -> nat, a: seq<Stream>, s: Stream, b: seq<Stream>)
    ensures Sum(amount, a + ([s] + b)) == amount(s) + Sum(amount, a + b)
  {
    SumSplits(amount, a, [s] + b);
    SumAdded(amount, s, b);
    SumSplits(amount, a, b);
  }

  lemma AroundOne<T>(s: seq<T>, i: nat, x: T)
    requires i < |s|
    ensures s == s[..i] + ([s[i]] + s[i + 1..]) && s[i := x] == s[..i] + ([x] + s[i + 1..])
  {
  }

  lemma SumRemoved(amount: Stream -> nat, streams: seq<Stream>, i: nat)
    requires i < |streams|
    ensures Sum(amount, streams) == amount(streams[i]) + Sum(amount, streams[..i] + streams[i + 1..])
  {
    AroundOne(streams, i, streams[i]);
    SumAround(amount, streams[..i], streams[i], streams[i + 1..]);
  }

  lemma SumReplaced(amount: Stream -> nat, streams: seq<Stream>, i: nat, s: Stream)
    requires i < |streams|
    ensures Sum(amount, streams[i := s]) + amount(streams[i]) == Sum(amount, streams) + amount(s)
  {
    AroundOne(streams, i, s);
    SumAround(amount, streams[..i], streams[i], streams[i + 1..]);
    SumAround(amount, streams[..i], s, streams[i + 1..]);
  }

  /** What a tick counts as a starvation event of a stream. */
  function Event(s: Stream): nat {
    Count(Starves(s))
  }

  lemma {:induction false} CountAllSplits(stats: Stats, streams: seq<Stream>)
    requires forall i :: 0 <= i < |streams| ==> StreamOk(streams[i])
    requires stats.underruns == stats.rebuffers + stats.starvations
    ensures var r := CountAll(stats, streams);
            r.underruns == r.rebuffers + r.starvations && r.starvations == stats.starvations + Sum(Event, streams)
    decreases |streams|
  {
    if streams != [] {
      var init, last := streams[..|streams| - 1], streams[|streams| - 1];
      CountAllSplits(stats, init);
      SumSplits(Event, init, [last]);
      SumOne(Event, last);
      assert streams == init + [last];
    }
  }

  lemma ReplaceOk(streams: seq<Stream>, i: nat, s: Stream)
    requires StreamsOk(streams) && i < |streams| && StreamOk(s) && s.id == streams[i].id
    ensures StreamsOk(streams[i := s])
  {
  }

  lemma RemoveOk(streams: seq<Stream>, i: nat)
    requires StreamsOk(streams) && i < |streams|
    ensures StreamsOk(streams[..i] + streams[i + 1..])
  {
  }

  lemma AddOk(streams: seq<Stream>, id: string)
    requires StreamsOk(streams) && Find(streams, id) < 0
    ensures StreamsOk([Fresh(id)] + streams)
  {
  }

  lemma TickOk(streams: seq<Stream>)
    requires StreamsOk(streams)
    ensures StreamsOk(TickAll(streams))
  {
    var ticked := TickAll(streams);
    forall i | 0 <= i < |streams| ensures StreamOk(ticked[i]) && ticked[i].id == streams[i].id {
      StepKeepsStreamOk(streams[i], Beat);
    }
  }

  lemma StreamsStepOk(streams: seq<Stream>, op: Op)
    requires StreamsOk(streams)
    ensures StreamsOk(StreamsAfter(streams, op))
  {
    match op
    case AddStream(id) =>
      if Find(streams, id) < 0 { AddOk(streams, id); }
    case RemoveStream(id) =>
      var i := Find(streams, id);
      if i >= 0 { RemoveOk(streams, i); }
    case Push(id, pcm) =>
      var i := Find(streams, id);
      if i >= 0 { ReplaceOk(streams, i, Pushed(streams[i], pcm)); }
    case Route(id, route) =>
      var i := Find(streams, id);
      if i >= 0 { ReplaceOk(streams, i, Rerouted(streams[i], route)); }
    case Tick => TickOk(streams);
    case ResetStats =>
    case Gain(_, _) =>
  }

  lemma StepOk(e: Engine, op: Op)
    requires EngineOk(e)
    ensures EngineOk(Apply(e, op))
  {
    StreamsStepOk(e.streams, op);
    if op == Tick {
      CountAllSplits(e.stats, e.streams);
    }
  }

  /** In every reachable engine a stream is starved exactly when it has played and waits for its cushion,
      and every silent block is either a rebuffering block or a starvation event. */
  lemma {:induction false} EveryRunOk(e: Engine, ops: seq<Op>)
    requires EngineOk(e)
    ensures EngineOk(Run(e, ops))
    decreases |ops|
  {
    if ops != [] {
      StepOk(e, ops[0]);
      EveryRunOk(Apply(e, ops[0]), ops[1..]);
    }
  }

  lemma HeardIsSample(s: Stream, k: nat, side: nat)
    requires StreamOk(s)
    ensures -0x8000 <= Heard(s, k, side) <= 0x7fff
  {
    if k < Taken(s) {
      FadingAttenuates(s, k);
    }
  }

  lemma {:induction false} MixedWithin(streams: seq<Stream>, i: nat)
    requires i < 2 * BLOCK && forall k :: 0 <= k < |streams| ==> StreamOk(streams[k])
    ensures -0x8000 * |streams| <= Mixed(streams)[i] <= 0x7fff * |streams|
    decreases |streams|
  {
    if streams != [] {
      var n := |streams| - 1;
      HeardIsSample(streams[n], i / 2, i % 2);
      MixedWithin(streams[..n], i);
      assert -0x8000 * (n + 1) == -0x8000 * n - 0x8000;
    }
  }

  /** Up to 65536 streams the sums of a tick, partial ones included, fit the 32 bits of their accumulator. */
  lemma AccumulatorFits(streams: seq<Stream>, n: nat, i: nat)
    requires StreamsOk(streams) && n <= |streams| <= 0x1_0000 && i < 2 * BLOCK
    ensures -0x8000_0000 <= Mixed(streams[..n])[i] <= 0x7fff_ffff
  {
    MixedWithin(streams[..n], i);
  }

  /** What a push counts: its samples, the greatest push and queue so far, and exactly the samples that are gone. */
  lemma PushCounts(e: Engine, id: string, pcm: seq<Sample>, i: nat)
    requires StreamsOk(e.streams) && i < |e.streams| && e.streams[i].id == id && pcm != []
    ensures var f := Apply(e, Push(id, pcm));
            && |f.streams| == |e.streams| && f.stats.pushCalls == e.stats.pushCalls + 1
            && f.stats.pushedSamples == e.stats.pushedSamples + |pcm|
            && f.stats.overflow == e.stats.overflow + (|e.streams[i].queue| + |pcm| - |f.streams[i].queue|)
            && f.stats.maxPush == (if |pcm| > e.stats.maxPush then |pcm| else e.stats.maxPush)
            && f.stats.maxQueued == (if |f.streams[i].queue| > e.stats.maxQueued then |f.streams[i].queue| else e.stats.maxQueued)
            && f.stats.(pushCalls := 0, pushedSamples := 0, overflow := 0, maxPush := 0, maxQueued := 0)
            == e.stats.(pushCalls := 0, pushedSamples := 0, overflow := 0, maxPush := 0, maxQueued := 0)
  {
    assert Find(e.streams, id) == i;
  }

  /** How many streams are such. */
  function Tally(such: Stream -> bool, streams: seq<Stream>): nat {
    |set i | 0 <= i < |streams| && such(streams[i])|
  }

  lemma TallyLast(such: Stream -> bool, streams: seq<Stream>)
    requires streams != []
    ensures Tally(such, streams) == Tally(such, streams[..|streams| - 1]) + Count(such(streams[|streams| - 1]))
  {
    var n := |streams| - 1;
    var all := set i | 0 <= i < |streams| && such(streams[i]);
    var front := set i | 0 <= i < n && such(streams[..n][i]);
    assert n !in front && all == if such(streams[n]) then front + {n} else front;
  }

  predicate FallsSilent(s: Stream) {
    !s.starved && Ticked(s).starved
  }

  predicate StaysSilent(s: Stream) {
    s.starved && Ticked(s).starved
  }

  predicate EndsSilent(s: Stream) {
    Ticked(s).starved
  }

  predicate WaitsToStart(s: Stream) {
    s.route != 'M' && !s.everPrimed && |s.queue| < 1280
  }

  /** What a tick counts: one block, and the streams that are silent behind it, by whether they have just fallen silent,
      stay silent or have not begun. */
  lemma TickCounts(e: Engine)
    requires StreamsOk(e.streams)
    ensures var t := e.stats;
            Apply(e, Tick).stats ==
            Stats(t.blocks + 1, t.underruns + Tally(EndsSilent, e.streams), t.overflow,
                  t.startups + Tally(WaitsToStart, e.streams), t.rebuffers + Tally(StaysSilent, e.streams),
                  t.starvations + Tally(FallsSilent, e.streams), t.pushCalls, t.pushedSamples, t.maxPush, t.maxQueued)
  {
    CountAllTallies(e.stats, e.streams);
  }

  lemma {:induction false} CountAllTallies(stats: Stats, streams: seq<Stream>)
    requires forall i :: 0 <= i < |streams| ==> StreamOk(streams[i])
    ensures CountAll(stats, streams) ==
            stats.(underruns := stats.underruns + Tally(EndsSilent, streams),
                   startups := stats.startups + Tally(WaitsToStart, streams),
                   rebuffers := stats.rebuffers + Tally(StaysSilent, streams),
                   starvations := stats.starvations + Tally(FallsSilent, streams))
    decreases |streams|
  {
    if streams != [] {
      CountAllTallies(stats, streams[..|streams| - 1]);
      TallyLast(EndsSilent, streams);
      TallyLast(WaitsToStart, streams);
      TallyLast(StaysSilent, streams);
      TallyLast(FallsSilent, streams);
      CountedMeans(CountAll(stats, streams[..|streams| - 1]), streams[|streams| - 1]);
    }
  }

  lemma CountedMeans(stats: Stats, s: Stream)
    requires StreamOk(s)
    ensures Counted(stats, s) ==
            stats.(underruns := stats.underruns + Count(EndsSilent(s)), startups := stats.startups + Count(WaitsToStart(s)),
                   rebuffers := stats.rebuffers + Count(StaysSilent(s)), starvations := stats.starvations + Count(FallsSilent(s)))
  {
    CountersMean(s);
  }

  // ---------------------------------------------------------------- what is heard

  lemma MixedOne(s: Stream, i: nat)
    requires i < 2 * BLOCK
    ensures Mixed([s])[i] == Heard(s, i / 2, i % 2)
  {
    assert [s][..0] == [];
  }

  /** Sums are over streams: two lists of streams sound together as each of them sounds alone. */
  lemma {:induction false} MixedAdds(a: seq<Stream>, b: seq<Stream>, i: nat)
    requires i < 2 * BLOCK
    ensures Mixed(a + b)[i] == Mixed(a)[i] + Mixed(b)[i]
    decreases |b|
  {
    if b == [] {
      assert a + b == a;
    } else {
      var n := |b| - 1;
      assert (a + b)[..|a + b| - 1] == a + b[..n];
      MixedAdds(a, b[..n], i);
    }
  }

  /** Gain is a percentage, truncated, and what is too loud saturates with its sign. */
  lemma GainMeans(sum: int, percent: nat)
    requires percent <= 100
    ensures exists x :: Truncates(x, sum * percent, 100)
                        && Scaled(sum, percent) == if x > 32767 then 32767 else if x < -32768 then -32768 else x
    ensures -32768 <= sum <= 32767 ==> Scaled(sum, 100) == sum
    ensures sum > 32767 ==> Scaled(sum, 100) == 32767
    ensures sum < -32768 ==> Scaled(sum, 100) == -32768
    ensures Scaled(sum, 0) == 0
  {
    QuotientTruncates(sum * percent, 100);
    assert Quotient(sum * 100, 100) == sum;
  }

  /** A gain is set for one side, within 0 and 100; other channels do not exist. */
  lemma GainSets(e: Engine, channel: nat, percent: int)
    ensures var f, p := Apply(e, Gain(channel, percent)), if percent < 0 then 0 else if percent > 100 then 100 else percent;
            f == match channel case 0 => e.(left := p) case 1 => e.(right := p) case _ => e
  {
  }

  /** Each side has its own gain, and only its own. */
  lemma SidesApart(e: Engine, k: nat, gain: int)
    requires k < BLOCK
    ensures Output(e.(right := gain), 2 * k) == Output(e, 2 * k)
    ensures Output(e.(left := gain), 2 * k + 1) == Output(e, 2 * k + 1)
    ensures Output(e.(left := 0), 2 * k) == 0 && Output(e.(right := 0), 2 * k + 1) == 0
  {
    GainMeans(Mixed(e.streams)[2 * k], 0);
    GainMeans(Mixed(e.streams)[2 * k + 1], 0);
  }

  lemma AloneAt(e: Engine, s: Stream, i: nat)
    requires e.streams == [s] && e.left == e.right == 100 && StreamOk(s) && i < 2 * BLOCK
    ensures Output(e, i) == Heard(s, i / 2, i % 2)
  {
    MixedOne(s, i);
    HeardIsSample(s, i / 2, i % 2);
    GainMeans(Heard(s, i / 2, i % 2), 100);
  }

  /** A stream alone at full gain: behind its last sample silence; before, each sample as faded, on the left unless it is
      routed right and on the right unless it is routed left. */
  lemma HeardAlone(e: Engine, s: Stream, k: nat)
    requires e.streams == [s] && e.left == e.right == 100 && StreamOk(s) && k < 320
    ensures k >= Sounding(s) ==> Output(e, 2 * k) == 0 && Output(e, 2 * k + 1) == 0
    ensures k < Sounding(s) ==>
              exists x :: SoundsAs(x, s, k) && Output(e, 2 * k) == (if s.route == 'R' then 0 else x)
                          && Output(e, 2 * k + 1) == if s.route == 'L' then 0 else x
  {
    AloneAt(e, s, 2 * k);
    AloneAt(e, s, 2 * k + 1);
    if k < Sounding(s) {
      FadedSounds(s, k);
    }
  }

  /** A stream that plays on without a fade is heard exactly as it was pushed. */
  lemma SteadyIsExact(e: Engine, s: Stream, k: nat)
    requires e.streams == [s] && e.left == e.right == 100 && StreamOk(s)
    requires s.route in {'S', 'L', 'R'} && (s.primed || |s.queue| >= 1280) && FadeAt(s) <= k < 320
    requires k < |s.queue| && (|s.queue| >= 320 || |s.queue| == 1 || k + 64 < |s.queue|)
    ensures (Output(e, 2 * k), Output(e, 2 * k + 1)) ==
            match s.route case 'S' => (s.queue[k], s.queue[k]) case 'L' => (s.queue[k], 0) case _ => (0, s.queue[k])
  {
    HeardAlone(e, s, k);
  }

  /** A fresh fade-in rises by a 64th with every sample. */
  lemma FadeInRises(e: Engine, s: Stream, k: nat)
    requires e.streams == [s] && e.left == e.right == 100 && StreamOk(s) && s.route == 'S'
    requires !s.primed && |s.queue| >= 1280 && k < 64
    ensures Truncates(Output(e, 2 * k), s.queue[k] * k, 64) && Output(e, 2 * k + 1) == Output(e, 2 * k)
  {
    HeardAlone(e, s, k);
  }

  /** The last sample of a short block is silent. */
  lemma FadeOutEnds(e: Engine, s: Stream)
    requires e.streams == [s] && e.left == e.right == 100 && StreamOk(s) && s.primed && 1 < |s.queue| < 320
    ensures Output(e, 2 * (|s.queue| - 1)) == 0 && Output(e, 2 * (|s.queue| - 1) + 1) == 0
  {
    var n, last := |s.queue|, |s.queue| - 1;
    HeardAlone(e, s, last);
    if s.route != 'M' {
      forall x | SoundsAs(x, s, last) ensures x == 0 {
        var y :| FadesIn(y, s, last) && FadesOut(x, y, n, last);
        LastIsSilent(x, y, n);
      }
    }
  }

  lemma LastIsSilent(x: int, y: int, n: nat)
    requires 1 < n < 320 && FadesOut(x, y, n, n - 1)
    ensures x == 0
  {
    assert y * 0 == 0;
  }

  // ---------------------------------------------------------------- one stream among the others

  /** What an engine operation means for the stream with the given name. */
  function Project(op: Op, id: string): seq<StreamOp> {
    match op
    case Push(name, pcm) => if name == id then [Feed(pcm)] else []
    case Route(name, route) => if name == id && route in ROUTES + "\0" then [Reroute(route)] else []
    case Tick => [Beat]
    case _ => []
  }

  function ProjectAll(ops: seq<Op>, id: string): seq<StreamOp>
    decreases |ops|
  {
    if ops == [] then [] else Project(ops[0], id) + ProjectAll(ops[1..], id)
  }

  lemma {:induction false} FindUnique(streams: seq<Stream>, k: nat)
    requires StreamsOk(streams) && k < |streams|
    ensures Find(streams, streams[k].id) == k
  {
  }

  /** Where a stream stands after an operation that leaves it in place, and what it has become. */
  lemma PlaceAfter(streams: seq<Stream>, op: Op, i: nat) returns (k: nat)
    requires StreamsOk(streams) && i < |streams| && op != RemoveStream(streams[i].id)
    ensures k < |StreamsAfter(streams, op)| && StreamsAfter(streams, op)[k].id == streams[i].id
    ensures StreamsAfter(streams, op)[k] == RunStream(streams[i], Project(op, streams[i].id))
  {
    k := i;
    match op
    case AddStream(name) => k := PlaceAfterAdd(streams, name, i);
    case RemoveStream(name) => k := PlaceAfterRemove(streams, name, i);
    case Push(name, pcm) => PlaceAfterChange(streams, op, name, i);
    case Route(name, route) => PlaceAfterChange(streams, op, name, i);
    case Tick => RunOne(streams[i], Beat);
    case ResetStats =>
    case Gain(_, _) =>
  }

  lemma PlaceAfterAdd(streams: seq<Stream>, name: string, i: nat) returns (k: nat)
    requires i < |streams|
    ensures k < |StreamsAfter(streams, AddStream(name))| && StreamsAfter(streams, AddStream(name))[k] == streams[i]
  {
    k := if name == "" || Find(streams, name) >= 0 then i else i + 1;
  }

  lemma PlaceAfterRemove(streams: seq<Stream>, name: string, i: nat) returns (k: nat)
    requires i < |streams| && name != streams[i].id
    ensures k < |StreamsAfter(streams, RemoveStream(name))| && StreamsAfter(streams, RemoveStream(name))[k] == streams[i]
  {
    var r := Find(streams, name);
    k := if 0 <= r < i then i - 1 else i;
  }

  lemma RunOne(s: Stream, op: StreamOp)
    ensures RunStream(s, [op]) == StepStream(s, op)
  {
    assert [op][1..] == [];
  }

  lemma PlaceAfterChange(streams: seq<Stream>, op: Op, name: string, i: nat)
    requires StreamsOk(streams) && i < |streams|
    requires (op.Push? && op.id == name) || (op.Route? && op.id == name)
    ensures |StreamsAfter(streams, op)| == |streams|
    ensures StreamsAfter(streams, op)[i] == RunStream(streams[i], Project(op, streams[i].id))
    ensures StreamsAfter(streams, op)[i].id == streams[i].id
  {
    if name == streams[i].id {
      FindUnique(streams, i);
      if op.Push? { RunOne(streams[i], Feed(op.pcm)); } else { RunOne(streams[i], Reroute(op.route)); }
    }
  }

  lemma StepProjects(e: Engine, op: Op, id: string)
    requires EngineOk(e) && Find(e.streams, id) >= 0 && op != RemoveStream(id)
    ensures var f := Apply(e, op);
            && Find(f.streams, id) >= 0
            && f.streams[Find(f.streams, id)] == RunStream(e.streams[Find(e.streams, id)], Project(op, id))
  {
    StreamsStepOk(e.streams, op);
    var k := PlaceAfter(e.streams, op, Find(e.streams, id));
    FindUnique(StreamsAfter(e.streams, op), k);
  }

  lemma {:induction false} RunStreamSplits(s: Stream, a: seq<StreamOp>, b: seq<StreamOp>)
    ensures RunStream(s, a + b) == RunStream(RunStream(s, a), b)
    decreases |a|
  {
    if a == [] {
      assert a + b == b;
    } else {
      assert (a + b)[1..] == a[1..] + b;
      RunStreamSplits(StepStream(s, a[0]), a[1..], b);
    }
  }

  /** Each stream of a running engine behaves as it would alone: the other streams never touch it. */
  lemma {:induction false} RunProjects(e: Engine, ops: seq<Op>, id: string)
    requires EngineOk(e) && Find(e.streams, id) >= 0 && RemoveStream(id) !in ops
    ensures var f := Run(e, ops);
            && Find(f.streams, id) >= 0
            && f.streams[Find(f.streams, id)] == RunStream(e.streams[Find(e.streams, id)], ProjectAll(ops, id))
    decreases |ops|
  {
    if ops != [] {
      StepOk(e, ops[0]);
      StepProjects(e, ops[0], id);
      RunProjects(Apply(e, ops[0]), ops[1..], id);
      RunStreamSplits(e.streams[Find(e.streams, id)], Project(ops[0], id), ProjectAll(ops[1..], id));
    }
  }

  /** What a stream added to a running engine can be said to suffer: it plays as it would alone from the start, its
      samples are accounted for, and it starves at most once in five ticks and once for every 80 ms of sound. */
  lemma AddedStreamRarelyStarves(e: Engine, id: string, ops: seq<Op>)
    requires EngineOk(e) && id != "" && Find(e.streams, id) < 0 && RemoveStream(id) !in ops
    ensures var f := Run(Apply(e, AddStream(id)), ops);
            var history := RunTally(Fresh(id), NoTally, ProjectAll(ops, id));
            && Find(f.streams, id) >= 0
            && Conserved(f.streams[Find(f.streams, id)], history) && StarvationBounded(history)
  {
    var added, own := Apply(e, AddStream(id)), ProjectAll(ops, id);
    StepOk(e, AddStream(id));
    RunProjects(added, ops, id);
    assert added.streams[Find(added.streams, id)] == Fresh(id);
    RunConserves(Fresh(id), NoTally, own);
    StarvationIsRare(Fresh(id), NoTally, own);
  }

  // ---------------------------------------------------------------- starvation over the whole engine

  /** The ticks a primed stream has had in advance: one, and one for every block its cushion lacks. */
  function Advance(s: Stream): nat {
    if !s.primed then 0 else if |s.queue| >= PREFILL - BLOCK then 1 else 4 - |s.queue| / BLOCK
  }

  /** How often a tick has served a stream in a run. */
  function Served(e: Engine, ops: seq<Op>): nat
    decreases |ops|
  {
    if ops == [] then 0 else (if ops[0] == Tick then |e.streams| else 0) + Served(Apply(e, ops[0]), ops[1..])
  }

  lemma TickSpendsAdvance(s: Stream)
    requires StreamOk(s)
    ensures Advance(Ticked(s)) + 5 * Event(s) <= Advance(s) + 1
  {
    var q := |s.queue|;
    if Plays(s) && q >= BLOCK {
      assert (q - BLOCK) / BLOCK == q / BLOCK - 1;
    }
  }

  lemma {:induction false} TicksSpendAdvance(streams: seq<Stream>)
    requires forall i :: 0 <= i < |streams| ==> StreamOk(streams[i])
    ensures Sum(Advance, TickAll(streams)) + 5 * Sum(Event, streams) <= Sum(Advance, streams) + |streams|
    decreases |streams|
  {
    if streams != [] {
      assert TickAll(streams)[1..] == TickAll(streams[1..]);
      TickSpendsAdvance(streams[0]);
      TicksSpendAdvance(streams[1..]);
    }
  }

  lemma ChangeKeepsAdvance(s: Stream, pcm: seq<Sample>, route: char)
    requires StreamOk(s)
    ensures Advance(Pushed(s, pcm)) <= Advance(s) && Advance(Rerouted(s, route)) == 0
  {
    assert |Pushed(s, pcm).queue| >= |s.queue|;
  }

  lemma StreamsStepAdvance(streams: seq<Stream>, op: Op)
    requires StreamsOk(streams) && op != Tick
    ensures Sum(Advance, StreamsAfter(streams, op)) <= Sum(Advance, streams)
  {
    match op
    case AddStream(id) => SumAdded(Advance, Fresh(id), streams);
    case RemoveStream(id) =>
      var i := Find(streams, id);
      if i >= 0 { SumRemoved(Advance, streams, i); }
    case Push(id, pcm) =>
      var i := Find(streams, id);
      if i >= 0 {
        ChangeKeepsAdvance(streams[i], pcm, 'S');
        SumReplaced(Advance, streams, i, Pushed(streams[i], pcm));
      }
    case Route(id, route) =>
      var i := Find(streams, id);
      if i >= 0 {
        ChangeKeepsAdvance(streams[i], [], route);
        SumReplaced(Advance, streams, i, Rerouted(streams[i], route));
      }
    case ResetStats =>
    case Gain(_, _) =>
  }

  lemma StepStarvesRarely(e: Engine, op: Op, served: nat)
    requires EngineOk(e) && 5 * e.stats.starvations + Sum(Advance, e.streams) <= served
    ensures var f := Apply(e, op);
            5 * f.stats.starvations + Sum(Advance, f.streams) <= served + if op == Tick then |e.streams| else 0
  {
    if op == Tick {
      CountAllSplits(e.stats, e.streams);
      TicksSpendAdvance(e.streams);
    } else {
      StreamsStepAdvance(e.streams, op);
      assert Apply(e, op).stats.starvations <= e.stats.starvations;
    }
  }

  /** The starvation counter of a whole engine, over every run and for any coming and going of streams: it rises by
      at most one for every five times a tick has served a stream. */
  lemma {:induction false} EngineRarelyStarves(e: Engine, ops: seq<Op>, served: nat)
    requires EngineOk(e) && 5 * e.stats.starvations + Sum(Advance, e.streams) <= served
    ensures 5 * Run(e, ops).stats.starvations <= served + Served(e, ops)
    decreases |ops|
  {
    if ops != [] {
      StepOk(e, ops[0]);
      StepStarvesRarely(e, ops[0], served);
      EngineRarelyStarves(Apply(e, ops[0]), ops[1..], served + if ops[0] == Tick then |e.streams| else 0);
    }
  }

  // ---------------------------------------------------------------- conservation over the whole engine

  function Queued(s: Stream): nat {
    |s.queue|
  }

  function Muted(s: Stream): nat {
    if s.route == 'M' then |s.queue| else 0
  }

  datatype Ledger = Ledger(pushed: nat, mixed: nat, overflow: nat, discarded: nat)

  function Account(e: Engine, l: Ledger, op: Op): Ledger {
    match op
    case Push(id, pcm) =>
      var i := Find(e.streams, id);
      if i < 0 then l else l.(pushed := l.pushed + |pcm|, overflow := l.overflow + if pcm == [] then 0 else Dropped(e.streams[i], pcm))
    case Route(id, route) =>
      var i := Find(e.streams, id);
      if i < 0 || route !in ROUTES + "\0" then l else l.(discarded := l.discarded + |e.streams[i].queue|)
    case RemoveStream(id) =>
      var i := Find(e.streams, id);
      if i < 0 then l else l.(discarded := l.discarded + |e.streams[i].queue|)
    case Tick => l.(mixed := l.mixed + Sum(Taken, e.streams), discarded := l.discarded + Sum(Muted, e.streams))
    case _ => l
  }

  function AccountRun(e: Engine, l: Ledger, ops: seq<Op>): Ledger
    decreases |ops|
  {
    if ops == [] then l else AccountRun(Apply(e, ops[0]), Account(e, l, ops[0]), ops[1..])
  }

  predicate Balanced(e: Engine, l: Ledger) {
    l.pushed == l.mixed + l.overflow + l.discarded + Sum(Queued, e.streams)
  }

  lemma {:induction false} HeldAfterTick(streams: seq<Stream>)
    ensures Sum(Queued, streams) == Sum(Queued, TickAll(streams)) + Sum(Taken, streams) + Sum(Muted, streams)
    decreases |streams|
  {
    if streams != [] {
      assert TickAll(streams)[1..] == TickAll(streams[1..]);
      HeldAfterTick(streams[1..]);
    }
  }

  lemma PushBalances(e: Engine, l: Ledger, id: string, pcm: seq<Sample>)
    requires Balanced(e, l)
    ensures Balanced(Apply(e, Push(id, pcm)), Account(e, l, Push(id, pcm)))
  {
    var i := Find(e.streams, id);
    if i >= 0 {
      SumReplaced(Queued, e.streams, i, Pushed(e.streams[i], pcm));
    }
  }

  lemma RouteBalances(e: Engine, l: Ledger, id: string, route: char)
    requires Balanced(e, l)
    ensures Balanced(Apply(e, Route(id, route)), Account(e, l, Route(id, route)))
  {
    var i := Find(e.streams, id);
    if i >= 0 {
      SumReplaced(Queued, e.streams, i, Rerouted(e.streams[i], route));
    }
  }

  lemma RemoveBalances(e: Engine, l: Ledger, id: string)
    requires Balanced(e, l)
    ensures Balanced(Apply(e, RemoveStream(id)), Account(e, l, RemoveStream(id)))
  {
    var i := Find(e.streams, id);
    if i >= 0 {
      SumRemoved(Queued, e.streams, i);
    }
  }

  lemma StepBalances(e: Engine, l: Ledger, op: Op)
    requires Balanced(e, l)
    ensures Balanced(Apply(e, op), Account(e, l, op))
  {
    match op
    case AddStream(id) => SumAdded(Queued, Fresh(id), e.streams);
    case RemoveStream(id) => RemoveBalances(e, l, id);
    case Push(id, pcm) => PushBalances(e, l, id, pcm);
    case Route(id, route) => RouteBalances(e, l, id, route);
    case Tick => HeldAfterTick(e.streams);
    case ResetStats =>
    case Gain(_, _) =>
  }

  /** Every sample ever pushed was mixed, overflowed, was thrown away by a mute, a route change or a removal, or is still queued. */
  lemma {:induction false} NothingLost(e: Engine, l: Ledger, ops: seq<Op>)
    requires Balanced(e, l)
    ensures Balanced(Run(e, ops), AccountRun(e, l, ops))
    decreases |ops|
  {
    if ops != [] {
      StepBalances(e, l, ops[0]);
      NothingLost(Apply(e, ops[0]), Account(e, l, ops[0]), ops[1..]);
    }
  }
}
