/** One receiver's stream in the client audio engine as a value: its queue, the
    prime/starve state machine and the samples a 20 ms tick takes from it. */
module AudioStream {
  import opened Arithmetic

  const BLOCK: nat := 320
  const CAPACITY: nat := 4000
  const PREFILL: nat := 4 * BLOCK
  const MAX_QUEUED: nat := 12 * BLOCK
  const FADE: nat := 64

  const LEFT: nat := 0

  type Sample = x: int | -0x8000 <= x <= 0x7fff

  datatype Stream = Stream(id: string, route: char, queue: seq<Sample>,
                           primed: bool, everPrimed: bool, starved: bool, fadeIn: nat)

  function Fresh(id: string): Stream {
    Stream(id, 'S', [], false, false, false, 0)
  }

  function Min(a: nat, b: nat): nat {
    if a <= b then a else b
  }

  function TakeLast<T>(s: seq<T>, n: nat): seq<T> {
    if |s| <= n then s else s[|s| - n..]
  }

  /** Division that truncates toward zero. */
  function Quotient(a: int, b: int): int
    requires b > 0
  {
    if a >= 0 then a / b else -((-a) / b)
  }

  // ---------------------------------------------------------------- operations

  function Pushed(s: Stream, pcm: seq<Sample>): Stream {
    s.(queue := TakeLast(s.queue + pcm, MAX_QUEUED))
  }

  function Dropped(s: Stream, pcm: seq<Sample>): nat {
    if |s.queue| + |pcm| > MAX_QUEUED then |s.queue| + |pcm| - MAX_QUEUED else 0
  }

  function Silenced(s: Stream): Stream {
    s.(queue := [], primed := false, everPrimed := false, starved := false)
  }

  function Rerouted(s: Stream, route: char): Stream {
    Silenced(s).(route := route, fadeIn := 0)
  }

  /** Whether a tick takes samples at all: not muted, and primed or with enough queued to become so. */
  predicate Plays(s: Stream) {
    s.route != 'M' && (s.primed || |s.queue| >= PREFILL)
  }

  function Taken(s: Stream): nat {
    if Plays(s) then Min(|s.queue|, BLOCK) else 0
  }

  /** The state in which the samples of a tick are taken. */
  function Primed(s: Stream): Stream {
    if s.primed then s else s.(primed := true, everPrimed := true, starved := false, fadeIn := FADE)
  }

  function Ticked(s: Stream): Stream {
    if s.route == 'M' then Silenced(s)
    else if !Plays(s) then s.(starved := s.starved || s.everPrimed)
    else
      var p, take := Primed(s), Taken(s);
      p.(queue := p.queue[take..], primed := take == BLOCK, starved := p.starved || take < BLOCK,
         fadeIn := if p.fadeIn > take then p.fadeIn - take else 0)
  }

  /** Whether a tick counts a starvation event: the stream is silent, has played before, and was not already counted. */
  predicate Starves(s: Stream) {
    s.route != 'M' &&
    if Plays(s) then Taken(s) < BLOCK && !Primed(s).starved else s.everPrimed && !s.starved
  }

  /** A stream that waits to be refilled after it has starved. */
  predicate Rebuffers(s: Stream) {
    s.route != 'M' && !Plays(s) && s.everPrimed
  }

  predicate Underruns(s: Stream) {
    Rebuffers(s) || (Plays(s) && Taken(s) < BLOCK)
  }

  predicate StartsUp(s: Stream) {
    s.route != 'M' && !Plays(s) && !s.everPrimed
  }

  /** Sample k of a tick: faded in after priming, and faded out at the end of a short block. */
  function Faded(s: Stream, k: nat): int
    requires k < Taken(s)
  {
    var fade, take := Primed(s).fadeIn, Taken(s);
    var x := if fade > k then Quotient(s.queue[k] * (FADE as int - (fade - k)), FADE) else s.queue[k];
    var tail := Min(take, FADE);
    if take < BLOCK && take > 1 && k >= take - tail then Quotient(x * (take - k - 1), tail) else x
  }

  function Heard(s: Stream, k: nat, side: nat): int {
    if k < Taken(s) && (if side == LEFT then s.route != 'R' else s.route != 'L') then Faded(s, k) else 0
  }

  // ---------------------------------------------------------------- what every step keeps

  predicate StreamOk(s: Stream) {
    && |s.queue| <= MAX_QUEUED && s.fadeIn <= FADE
    && (s.primed ==> s.everPrimed)
    && (s.starved <==> s.everPrimed && !s.primed)
  }

  datatype StreamOp = Feed(pcm: seq<Sample>) | Beat | Reroute(route: char)

  /** The history of a stream: ticks, starvation events, every sample pushed and played, and the losses. */
  datatype Tally = Tally(ticks: nat, events: nat, pushed: seq<Sample>, played: seq<Sample>, overflow: nat, discarded: nat)

  const NoTally := Tally(0, 0, [], [], 0, 0)

  function StepStream(s: Stream, op: StreamOp): Stream {
    match op
    case Feed(pcm) => Pushed(s, pcm)
    case Beat => Ticked(s)
    case Reroute(route) => Rerouted(s, route)
  }

  function StepTally(s: Stream, t: Tally, op: StreamOp): Tally {
    match op
    case Feed(pcm) => t.(pushed := t.pushed + pcm, overflow := t.overflow + Dropped(s, pcm))
    case Beat => t.(ticks := t.ticks + 1, events := t.events + (if Starves(s) then 1 else 0),
                    played := t.played + s.queue[..Taken(s)],
                    discarded := t.discarded + (if s.route == 'M' then |s.queue| else 0))
    case Reroute(_) => t.(discarded := t.discarded + |s.queue|)
  }

  function RunStream(s: Stream, ops: seq<StreamOp>): Stream
    decreases |ops|
  {
    if ops == [] then s else RunStream(StepStream(s, ops[0]), ops[1..])
  }

  function RunTally(s: Stream, t: Tally, ops: seq<StreamOp>): Tally
    decreases |ops|
  {
    if ops == [] then t else RunTally(StepStream(s, ops[0]), StepTally(s, t, ops[0]), ops[1..])
  }

  /** Every sample pushed was played, overflowed, was thrown away, or is still queued; and without losses the
      samples played and queued are exactly the samples pushed, in order. */
  predicate Conserved(s: Stream, t: Tally) {
    && |t.pushed| == |t.played| + t.overflow + t.discarded + |s.queue|
    && (t.overflow == 0 && t.discarded == 0 ==> t.pushed == t.played + s.queue)
  }

  predicate StarvationBounded(t: Tally) {
    5 * t.events <= t.ticks && PREFILL * t.events <= |t.played|
  }

  /** While a stream is primed, what is missing from its cushion was played since the last event. */
  predicate Cushioned(s: Stream, t: Tally) {
    s.primed ==>
      && t.ticks > 5 * t.events
      && PREFILL <= |s.queue| + BLOCK * (t.ticks - 5 * t.events)
      && PREFILL * (t.events + 1) <= |t.played| + |s.queue|
  }

  lemma StepKeepsStreamOk(s: Stream, op: StreamOp)
    requires StreamOk(s)
    ensures StreamOk(StepStream(s, op))
  {
  }

  lemma StepConserves(s: Stream, t: Tally, op: StreamOp)
    requires StreamOk(s) && Conserved(s, t)
    ensures Conserved(StepStream(s, op), StepTally(s, t, op))
  {
    match op
    case Feed(pcm) =>
      assert t.played + (s.queue + pcm) == t.played + s.queue + pcm;
    case Beat =>
      var take := Taken(s);
      assert s.queue == s.queue[..take] + s.queue[take..];
      assert t.played + s.queue == t.played + s.queue[..take] + s.queue[take..];
    case Reroute(_) =>
      assert t.played + s.queue == t.played + [] + s.queue;
  }

  lemma StepBoundsStarvation(s: Stream, t: Tally, op: StreamOp)
    requires StreamOk(s) && StarvationBounded(t) && Cushioned(s, t)
    ensures StarvationBounded(StepTally(s, t, op)) && Cushioned(StepStream(s, op), StepTally(s, t, op))
  {
  }

  /** Starvation over whole runs: at most one event for every five ticks and for every 80 ms of samples played,
      under any interleaving of pushes, ticks and route changes. */
  lemma {:induction false} StarvationIsRare(s: Stream, t: Tally, ops: seq<StreamOp>)
    requires StreamOk(s) && StarvationBounded(t) && Cushioned(s, t)
    ensures StreamOk(RunStream(s, ops)) && StarvationBounded(RunTally(s, t, ops))
    decreases |ops|
  {
    if ops != [] {
      StepKeepsStreamOk(s, ops[0]);
      StepBoundsStarvation(s, t, ops[0]);
      StarvationIsRare(StepStream(s, ops[0]), StepTally(s, t, ops[0]), ops[1..]);
    }
  }

  lemma {:induction false} RunConserves(s: Stream, t: Tally, ops: seq<StreamOp>)
    requires StreamOk(s) && Conserved(s, t)
    ensures Conserved(RunStream(s, ops), RunTally(s, t, ops))
    decreases |ops|
  {
    if ops != [] {
      StepKeepsStreamOk(s, ops[0]);
      StepConserves(s, t, ops[0]);
      RunConserves(StepStream(s, ops[0]), StepTally(s, t, ops[0]), ops[1..]);
    }
  }

  // ---------------------------------------------------------------- what is heard

  lemma QuotientShrinks(a: int, m: int, n: int)
    requires 0 <= m <= n && n > 0
    ensures a >= 0 ==> 0 <= Quotient(a * m, n) <= a
    ensures a <= 0 ==> a <= Quotient(a * m, n) <= 0
  {
    var b := if a >= 0 then a else -a;
    Grows(m, n, b);
    assert (-a) * m == -(a * m);
    QuotientBound(b * m, b, n);
  }

  /** Fading never makes a sample louder or flips its sign, so what one stream adds still is a sample. */
  lemma FadingAttenuates(s: Stream, k: nat)
    requires StreamOk(s) && k < Taken(s)
    ensures s.queue[k] >= 0 ==> 0 <= Faded(s, k) <= s.queue[k]
    ensures s.queue[k] <= 0 ==> s.queue[k] <= Faded(s, k) <= 0
  {
    var fade, take := Primed(s).fadeIn, Taken(s);
    var x := if fade > k then Quotient(s.queue[k] * (FADE as int - (fade - k)), FADE) else s.queue[k];
    if fade > k {
      QuotientShrinks(s.queue[k], FADE - (fade - k), FADE);
    }
    var tail := Min(take, FADE);
    if take < BLOCK && take > 1 && k >= take - tail {
      QuotientShrinks(x, take - k - 1, tail);
    }
  }

  /** The whole quotient of a and d toward zero, said by what is left over. */
  predicate Truncates(r: int, a: int, d: nat) {
    && (a >= 0 ==> 0 <= r && 0 <= a - r * d < d)
    && (a <= 0 ==> r <= 0 && 0 <= r * d - a < d)
  }

  lemma QuotientTruncates(a: int, d: nat)
    requires d > 0
    ensures Truncates(Quotient(a, d), a, d)
  {
    var b := if a >= 0 then a else -a;
    Remainder(b, d);
    Negated(b / d, d);
  }

  lemma Remainder(b: nat, d: nat)
    requires d > 0
    ensures 0 <= b / d && 0 <= b - b / d * d < d
  {
  }

  lemma Negated(q: int, d: int)
    ensures (-q) * d == -(q * d)
  {
  }

  /** The samples a tick plays: none of a muted stream or one that waits for its cushion, else up to a block. */
  function Sounding(s: Stream): (n: nat)
    ensures n <= 320 && n <= |s.queue|
  {
    if s.route == 'M' || (!s.primed && |s.queue| < 1280) then 0 else if |s.queue| < 320 then |s.queue| else 320
  }

  /** The fade-in that is left when a tick begins: a stream that has just filled its cushion has all of it. */
  function FadeAt(s: Stream): nat {
    if s.primed then s.fadeIn else 64
  }

  /** A sample scaled up during a fade-in. */
  predicate FadesIn(y: int, s: Stream, k: nat)
    requires k < |s.queue|
  {
    if FadeAt(s) > k then Truncates(y, s.queue[k] * (64 - (FadeAt(s) - k)), 64) else y == s.queue[k]
  }

  /** A sample scaled down at the end of a short block. */
  predicate FadesOut(r: int, y: int, n: nat, k: nat) {
    var tail := if n < 64 then n else 64;
    if 1 < n < 320 && k >= n - tail then Truncates(r, y * (n - 1 - k), tail) else r == y
  }

  /** What becomes of sample k of a tick. */
  ghost predicate SoundsAs(r: int, s: Stream, k: nat)
    requires k < Sounding(s)
  {
    exists y :: FadesIn(y, s, k) && FadesOut(r, y, Sounding(s), k)
  }

  lemma FadedSounds(s: Stream, k: nat)
    requires StreamOk(s) && k < Sounding(s)
    ensures k < Taken(s) && SoundsAs(Faded(s, k), s, k)
  {
    var fade, n := FadeAt(s), Sounding(s);
    assert fade == Primed(s).fadeIn && n == Taken(s);
    var y := if fade > k then Quotient(s.queue[k] * (FADE as int - (fade - k)), FADE) else s.queue[k];
    QuotientTruncates(s.queue[k] * (FADE as int - (fade - k)), FADE);
    assert FadesIn(y, s, k);
    FadesOutAs(y, n, k);
  }

  lemma FadesOutAs(y: int, n: nat, k: nat)
    requires k < n
    ensures var tail := Min(n, FADE);
            FadesOut(if n < BLOCK && n > 1 && k >= n - tail then Quotient(y * (n - k - 1), tail) else y, y, n, k)
  {
    QuotientTruncates(y * (n - k - 1), Min(n, FADE));
  }

  /** What a tick leaves of a stream: it is behind the samples that were played, it stays primed by a whole block only,
      and a mute throws everything away. */
  lemma TickLeaves(s: Stream)
    requires StreamOk(s)
    ensures var t, n, plays := Ticked(s), Sounding(s), s.route != 'M' && (s.primed || |s.queue| >= 1280);
            && t.id == s.id && t.route == s.route
            && t.queue == (if s.route == 'M' then [] else s.queue[n..])
            && (t.primed <==> n == 320) && (t.everPrimed <==> s.route != 'M' && (s.everPrimed || plays))
            && (t.starved <==> t.everPrimed && !t.primed)
            && t.fadeIn == if !plays then s.fadeIn else if FadeAt(s) > n then FadeAt(s) - n else 0
  {
  }

  /** A new route starts the stream over, as if it had just been added under that route. */
  lemma RerouteStartsOver(s: Stream, route: char)
    ensures Rerouted(s, route) == Fresh(s.id).(route := route)
    ensures Fresh(s.id) == Stream(s.id, 'S', [], false, false, false, 0)
  {
  }

  /** What the counters of a tick mean: a starvation event is a stream that falls silent, a rebuffering block one that
      stays silent, a startup one that has not played yet and waits. */
  lemma CountersMean(s: Stream)
    requires StreamOk(s)
    ensures Starves(s) <==> !s.starved && Ticked(s).starved
    ensures Rebuffers(s) <==> s.starved && Ticked(s).starved
    ensures StartsUp(s) <==> s.route != 'M' && !s.everPrimed && |s.queue| < 1280
    ensures Underruns(s) <==> Ticked(s).starved
  {
  }

  /** The samples of several pushes, one after the other. */
  function Fed(pushes: seq<seq<Sample>>): seq<Sample> {
    if pushes == [] then [] else Fed(pushes[..|pushes| - 1]) + pushes[|pushes| - 1]
  }

  function Feeds(pushes: seq<seq<Sample>>): (r: seq<StreamOp>)
    ensures |r| == |pushes| && forall i :: 0 <= i < |r| ==> r[i] == Feed(pushes[i])
  {
    seq(|pushes|, i requires 0 <= i < |pushes| => Feed(pushes[i]))
  }

  lemma {:induction false} RunLast(s: Stream, ops: seq<StreamOp>, last: StreamOp)
    ensures RunStream(s, ops + [last]) == StepStream(RunStream(s, ops), last)
    decreases |ops|
  {
    if ops == [] {
      assert (ops + [last])[1..] == [];
    } else {
      assert (ops + [last])[1..] == ops[1..] + [last];
      RunLast(StepStream(s, ops[0]), ops[1..], last);
    }
  }

  /** The newest so many of a sequence. */
  predicate IsNewest<T(==)>(r: seq<T>, s: seq<T>, n: nat) {
    |r| == (if |s| < n then |s| else n) && s[|s| - |r|..] == r
  }

  lemma NewestStep<T>(a: seq<T>, all: seq<T>, b: seq<T>, n: nat)
    requires IsNewest(a, all, n)
    ensures IsNewest(TakeLast(a + b, n), all + b, n)
  {
  }

  lemma Joins<T>(a: seq<T>, b: seq<T>, c: seq<T>)
    ensures a + b + c == a + (b + c)
  {
  }

  lemma NewestOf(s: Stream, all: seq<Sample>, last: seq<Sample>)
    requires IsNewest(s.queue, all, 3840)
    ensures IsNewest(Pushed(s, last).queue, all + last, 3840)
  {
    NewestStep(s.queue, all, last, 3840);
  }

  /** However many pushes come between two ticks, and however they overflow, the queue is the newest 3840 samples of all. */
  lemma {:induction false} PushesKeepNewest(s: Stream, pushes: seq<seq<Sample>>)
    requires |s.queue| <= MAX_QUEUED
    ensures IsNewest(RunStream(s, Feeds(pushes)).queue, s.queue + Fed(pushes), 3840)
    decreases |pushes|
  {
    if pushes == [] {
      assert s.queue + [] == s.queue;
    } else {
      var front, last := pushes[..|pushes| - 1], pushes[|pushes| - 1];
      assert Feeds(pushes) == Feeds(front) + [Feed(last)];
      RunLast(s, Feeds(front), Feed(last));
      PushesKeepNewest(s, front);
      NewestOf(RunStream(s, Feeds(front)), s.queue + Fed(front), last);
      Joins(s.queue, Fed(front), last);
    }
  }
}
