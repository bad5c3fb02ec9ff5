/** Client-side chat pacing: a bounded queue emptied through a token bucket. */
module ChatPacing {

  /** Burst in messages, refill interval in milliseconds, and queue limit, as clamped by the settings. */
  datatype Config = Config(burst: nat, interval: nat, limit: nat)

  predicate ConfigOk(c: Config) {
    1 <= c.burst <= 100 && 100 <= c.interval <= 60000 && 1 <= c.limit <= 1000
  }

  /** Zero as the time of the last flush means that there was none; `popped` is everything taken from the queue so far. */
  datatype State<Message> = State(queue: seq<Message>, tokens: real, updated: nat, accepted: seq<Message>, popped: seq<Message>)

  function Started<Message>(): State<Message> {
    State([], 4.0, 0, [], [])
  }

  function MinReal(a: real, b: real): real {
    if a <= b then a else b
  }

  function Earned(c: Config, elapsed: int): real
    requires ConfigOk(c)
  {
    elapsed as real / (c.interval as real * 1000.0)
  }

  /** The bucket after the time since the last flush has been credited. */
  function Refilled<M>(s: State<M>, c: Config, stamp: nat): real
    requires ConfigOk(c)
  {
    var credited := if s.updated != 0 && stamp >= s.updated then s.tokens + Earned(c, stamp - s.updated) else s.tokens;
    MinReal(credited, c.burst as real)
  }

  function Drain<M>(s: State<M>): State<M>
    decreases |s.queue|
  {
    if s.queue == [] || s.tokens < 1.0 then s
    else Drain(s.(queue := s.queue[1..], tokens := s.tokens - 1.0, popped := s.popped + [s.queue[0]]))
  }

  function Flushed<M>(s: State<M>, c: Config, stamp: nat): State<M>
    requires ConfigOk(c)
  {
    Drain(s.(tokens := Refilled(s, c, stamp), updated := stamp))
  }

  datatype Event<Message> = Flush(stamp: nat) | Send(message: Message, stamp: nat)

  predicate Refused<M>(s: State<M>, c: Config) {
    |s.queue| >= c.limit
  }

  function Step<M>(s: State<M>, c: Config, e: Event<M>): State<M>
    requires ConfigOk(c)
  {
    match e
    case Flush(stamp) => Flushed(s, c, stamp)
    case Send(m, stamp) =>
      if Refused(s, c) then s
      else Flushed(s.(queue := s.queue + [m], accepted := s.accepted + [m]), c, stamp)
  }

  function Run<M>(s: State<M>, c: Config, events: seq<Event<M>>): State<M>
    requires ConfigOk(c)
    decreases |events|
  {
    if events == [] then s else Run(Step(s, c, events[0]), c, events[1..])
  }

  // ---------------------------------------------------------------- order and bound of the queue

  ghost predicate InOrder<M>(s: State<M>, c: Config) {
    s.accepted == s.popped + s.queue && |s.queue| <= c.limit && s.tokens >= 0.0
  }

  lemma {:induction false} DrainOrder<M>(s: State<M>)
    requires s.accepted == s.popped + s.queue && s.tokens >= 0.0
    ensures var d := Drain(s);
            && d.accepted == s.accepted == d.popped + d.queue && s.popped <= d.popped
            && d.updated == s.updated && 0.0 <= d.tokens
            && d.tokens == s.tokens - (|d.popped| - |s.popped|) as real
            && |d.queue| <= |s.queue|
    decreases |s.queue|
  {
    if s.queue != [] && s.tokens >= 1.0 {
      var t := s.(queue := s.queue[1..], tokens := s.tokens - 1.0, popped := s.popped + [s.queue[0]]);
      assert s.popped + s.queue == t.popped + t.queue;
      DrainOrder(t);
    }
  }

  lemma RefillNonNegative<M>(s: State<M>, c: Config, stamp: nat)
    requires ConfigOk(c) && s.tokens >= 0.0
    ensures 0.0 <= Refilled(s, c, stamp) <= c.burst as real
    ensures s.updated != 0 && stamp >= s.updated ==> Refilled(s, c, stamp) <= s.tokens + Earned(c, stamp - s.updated)
  {
  }

  lemma StepOrder<M>(s: State<M>, c: Config, e: Event<M>)
    requires ConfigOk(c) && InOrder(s, c)
    ensures InOrder(Step(s, c, e), c) && s.popped <= Step(s, c, e).popped && s.accepted <= Step(s, c, e).accepted
    ensures Step(s, c, e).accepted == if e.Send? && !Refused(s, c) then s.accepted + [e.message] else s.accepted
  {
    RefillNonNegative(s, c, e.stamp);
    match e
    case Flush(stamp) => DrainOrder(s.(tokens := Refilled(s, c, stamp), updated := stamp));
    case Send(m, stamp) =>
      if !Refused(s, c) {
        var t := s.(queue := s.queue + [m], accepted := s.accepted + [m]);
        assert t.accepted == t.popped + t.queue;
        DrainOrder(t.(tokens := Refilled(t, c, stamp), updated := stamp));
      }
  }

  /** Messages leave the queue in the order they were accepted, none twice and none lost, and the queue never outgrows its limit. */
  lemma {:induction false} FirstInFirstOut<M>(s: State<M>, c: Config, events: seq<Event<M>>)
    requires ConfigOk(c) && InOrder(s, c)
    ensures InOrder(Run(s, c, events), c) && s.popped <= Run(s, c, events).popped
    decreases |events|
  {
    if events != [] {
      StepOrder(s, c, events[0]);
      FirstInFirstOut(Step(s, c, events[0]), c, events[1..]);
    }
  }

  // ---------------------------------------------------------------- the rate bound

  predicate Within<M>(events: seq<Event<M>>, from: nat, until: nat) {
    && (forall i :: 0 <= i < |events| ==> from <= events[i].stamp <= until)
    && (forall i, j :: 0 <= i < j < |events| ==> events[i].stamp <= events[j].stamp)
  }

  function Popped<M>(s: State<M>, c: Config, events: seq<Event<M>>): int
    requires ConfigOk(c)
  {
    |Run(s, c, events).popped| - |s.popped|
  }

  lemma EarnedAdds(c: Config, a: int, b: int)
    requires ConfigOk(c)
    ensures Earned(c, a) + Earned(c, b) == Earned(c, a + b)
    ensures a <= b ==> Earned(c, a) <= Earned(c, b)
    ensures a >= 0 ==> Earned(c, a) >= 0.0
  {
    var k := c.interval as real * 1000.0;
    DivideSum(a as real, b as real, k);
    if a <= b { Divide(a as real, b as real, k); }
    if a >= 0 { Divide(0.0, a as real, k); }
  }

  lemma DivideSum(x: real, y: real, k: real)
    requires k > 0.0
    ensures x / k + y / k == (x + y) / k
  {
    var p, q := x / k, y / k;
    assert (p + q) * k == p * k + q * k;
    assert p * k == x && q * k == y;
  }

  lemma Divide(x: real, y: real, k: real)
    requires k > 0.0 && x <= y
    ensures x / k <= y / k
  {
  }

  /** A flush takes as many messages from the front of the queue as there are, or as the bucket has whole tokens for: what it
      held and has earned since the last flush, up to the burst. */
  lemma FlushTakes<M>(s: State<M>, c: Config, stamp: nat) returns (n: nat)
    requires ConfigOk(c) && s.tokens >= 0.0
    ensures var earned := if s.updated != 0 && stamp >= s.updated
                          then (stamp - s.updated) as real / (c.interval as real * 1000.0) else 0.0;
            var credit := if s.tokens + earned <= c.burst as real then s.tokens + earned else c.burst as real;
            var t := Flushed(s, c, stamp);
            && n <= |s.queue| && n as real <= credit && (n == |s.queue| || credit < n as real + 1.0)
            && t.queue == s.queue[n..] && t.popped == s.popped + s.queue[..n]
            && t.tokens == credit - n as real && t.updated == stamp && t.accepted == s.accepted
  {
    RefillNonNegative(s, c, stamp);
    n := DrainTakes(s.(tokens := Refilled(s, c, stamp), updated := stamp));
  }

  /** A new connection may send four messages at once, or as many as the burst allows if that is less. */
  lemma StartsWithFour<M>(queue: seq<M>, c: Config, stamp: nat)
    requires ConfigOk(c)
    ensures var n, s := if c.burst < 4 then c.burst else 4, Started<M>();
            Flushed(s.(queue := queue, accepted := queue), c, stamp).popped == if |queue| <= n then queue else queue[..n]
  {
    var s := Started<M>();
    var n := FlushTakes(s.(queue := queue, accepted := queue), c, stamp);
    assert queue[..|queue|] == queue;
  }

  lemma {:induction false} DrainTakes<M>(s: State<M>) returns (n: nat)
    requires s.tokens >= 0.0
    ensures var t := Drain(s);
            && n <= |s.queue| && n as real <= s.tokens && (n == |s.queue| || s.tokens < n as real + 1.0)
            && t == s.(queue := s.queue[n..], popped := s.popped + s.queue[..n], tokens := s.tokens - n as real)
    decreases |s.queue|
  {
    if s.queue == [] || s.tokens < 1.0 {
      n := 0;
      assert s.queue[0..] == s.queue && s.popped + s.queue[..0] == s.popped;
    } else {
      var m := DrainTakes(s.(queue := s.queue[1..], tokens := s.tokens - 1.0, popped := s.popped + [s.queue[0]]));
      n := m + 1;
      assert s.queue[1..][m..] == s.queue[n..];
      assert s.popped + [s.queue[0]] + s.queue[1..][..m] == s.popped + s.queue[..n];
    }
  }

  /** Nobody waits for ever: a flush one interval after the last one takes at least one waiting message. */
  lemma WaitingIsServed<M>(s: State<M>, c: Config, stamp: nat)
    requires ConfigOk(c) && s.tokens >= 0.0 && s.queue != [] && s.updated != 0
    requires stamp >= s.updated + c.interval * 1000
    ensures s.popped + [s.queue[0]] <= Flushed(s, c, stamp).popped
  {
    var n := FlushTakes(s, c, stamp);
    var k := c.interval as real * 1000.0;
    Divide(k, (stamp - s.updated) as real, k);
    assert k / k == 1.0;
    assert n >= 1;
    assert s.queue[..n][0] == s.queue[0];
  }

  /** A message is refused exactly if the queue is full; otherwise it queues behind the others and a flush follows. */
  lemma SendQueues<M>(s: State<M>, c: Config, m: M, stamp: nat)
    requires ConfigOk(c)
    ensures Step(s, c, Send(m, stamp)) ==
            if |s.queue| >= c.limit then s
            else Step(s.(queue := s.queue + [m], accepted := s.accepted + [m]), c, Flush(stamp))
  {
  }

  /** What one step pops comes out of what the bucket holds. */
  lemma StepSpends<M>(s: State<M>, c: Config, e: Event<M>)
    requires ConfigOk(c) && InOrder(s, c)
    ensures var t := Step(s, c, e);
            if e.Send? && Refused(s, c) then t == s
            else t.updated == e.stamp && t.tokens + (|t.popped| - |s.popped|) as real == Refilled(s, c, e.stamp)
  {
    RefillNonNegative(s, c, e.stamp);
    if e.Flush? {
      DrainOrder(s.(tokens := Refilled(s, c, e.stamp), updated := e.stamp));
    } else if !Refused(s, c) {
      var t := s.(queue := s.queue + [e.message], accepted := s.accepted + [e.message]);
      assert t.accepted == t.popped + t.queue;
      DrainOrder(t.(tokens := Refilled(t, c, e.stamp), updated := e.stamp));
    }
  }

  /** From a flush on, no more is popped than the bucket held then and has earned since. */
  lemma {:induction false} SpendingBound<M>(s: State<M>, c: Config, events: seq<Event<M>>, until: nat)
    requires ConfigOk(c) && InOrder(s, c) && 0 < s.updated <= until && Within(events, s.updated, until)
    ensures Popped(s, c, events) as real <= s.tokens + Earned(c, until - s.updated)
    decreases |events|
  {
    EarnedAdds(c, until - s.updated, 0);
    if events != [] {
      var e := events[0];
      var t := Step(s, c, e);
      StepOrder(s, c, e);
      StepSpends(s, c, e);
      SpendingBound(t, c, events[1..], until);
      RefillNonNegative(s, c, e.stamp);
      EarnedAdds(c, e.stamp - s.updated, until - e.stamp);
    }
  }

  /** Between any two moments, at most a burst and what the interval between them has earned is popped. */
  lemma {:induction false} RateBound<M>(s: State<M>, c: Config, events: seq<Event<M>>, from: nat, until: nat)
    requires ConfigOk(c) && InOrder(s, c) && 0 < from <= until && Within(events, from, until)
    ensures Popped(s, c, events) as real <= c.burst as real + Earned(c, until - from)
    decreases |events|
  {
    EarnedAdds(c, until - from, 0);
    if events != [] {
      var e := events[0];
      var t := Step(s, c, e);
      StepOrder(s, c, e);
      StepSpends(s, c, e);
      if e.Send? && Refused(s, c) {
        RateBound(s, c, events[1..], from, until);
      } else {
        RefillNonNegative(s, c, e.stamp);
        SpendingBound(t, c, events[1..], until);
        EarnedAdds(c, until - e.stamp, until - from);
      }
    }
  }

  /** The bound holds anywhere in any run from the start. */
  lemma RunRateBound<M>(c: Config, before: seq<Event<M>>, events: seq<Event<M>>, from: nat, until: nat)
    requires ConfigOk(c) && 0 < from <= until && Within(events, from, until)
    ensures Popped(Run(Started<M>(), c, before), c, events) as real <= c.burst as real + Earned(c, until - from)
  {
    FirstInFirstOut(Started<M>(), c, before);
    RateBound(Run(Started<M>(), c, before), c, events, from, until);
  }

  // ---------------------------------------------------------------- the pacer object

  class Pacer<Message> {
    const config: Config
    var queue: seq<Message>
    var tokens: real
    var updated: nat
    ghost var accepted: seq<Message>
    ghost var popped: seq<Message>

    ghost function View(): State<Message>
      reads this
    {
      State(queue, tokens, updated, accepted, popped)
    }

    constructor (c: Config)
      ensures View() == Started<Message>() && config == c
    {
      config, queue, tokens, updated, accepted, popped := c, [], 4.0, 0, [], [];
    }

    /** Credits the elapsed time and sends what the bucket allows. */
    method Flush(stamp: nat) returns (sent: seq<Message>)
      requires ConfigOk(config)
      modifies this
      ensures View() == Flushed(old(View()), config, stamp)
      ensures popped == old(popped) + sent
    {
      ghost var refilled := View().(tokens := Refilled(View(), config, stamp), updated := stamp);
      if updated != 0 && stamp >= updated {
        tokens := MinReal(config.burst as real, tokens + (stamp - updated) as real / (config.interval as real * 1000.0));
      }
      updated := stamp;
      tokens := MinReal(tokens, config.burst as real);
      sent := [];
      while queue != [] && tokens >= 1.0
        invariant Drain(View()) == Drain(refilled)
        invariant popped == old(popped) + sent
        decreases |queue|
      {
        var next := queue[0];
        popped := popped + [next];
        sent := sent + [next];
        queue := queue[1..];
        tokens := tokens - 1.0;
      }
    }

    method Send(message: Message, stamp: nat) returns (ok: bool, sent: seq<Message>)
      requires ConfigOk(config)
      modifies this
      ensures View() == Step(old(View()), config, Event.Send(message, stamp))
      ensures ok == !Refused(old(View()), config) && popped == old(popped) + sent
    {
      if |queue| >= config.limit {
        return false, [];
      }
      queue := queue + [message];
      accepted := accepted + [message];
      sent := Flush(stamp);
      ok := true;
    }
  }
}
