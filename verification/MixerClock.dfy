/** The absolute 20 ms clock of the audio thread: late wake-ups skip whole
    blocks, and the deadline never leaves the grid it started on. */
module MixerClock {
  import opened Arithmetic

  const PERIOD: int := 20000  // microseconds
  const LATE: int := 5000

  datatype Clock = Clock(deadline: int, emitted: nat, skipped: nat, late: nat, maxLate: nat)

  function Started(start: int): Clock {
    Clock(start + PERIOD, 0, 0, 0, 0)
  }

  function Missed(c: Clock, now: int): nat {
    if now > c.deadline then (now - c.deadline) / PERIOD else 0
  }

  /** One pass of the thread that wakes at `now`; a pass that finds the engine stopped emits no block. */
  function Pass(c: Clock, now: int, running: bool): Clock {
    var overdue := now - c.deadline;
    var d := c.(skipped := c.skipped + Missed(c, now),
                late := if overdue >= LATE then c.late + 1 else c.late,
                maxLate := if overdue >= LATE && overdue > c.maxLate then overdue else c.maxLate);
    if running then d.(deadline := c.deadline + (Missed(c, now) + 1) * PERIOD, emitted := c.emitted + 1) else d
  }

  function Run(c: Clock, wakes: seq<int>): Clock
    decreases |wakes|
  {
    if wakes == [] then c else Run(Pass(c, wakes[0], true), wakes[1..])
  }

  predicate OnGrid(c: Clock, start: int) {
    c.deadline == start + PERIOD * (c.emitted + c.skipped + 1)
  }

  /** However late or early the thread wakes, the deadline stays a whole number of periods from the start. */
  lemma {:induction false} RunStaysOnGrid(c: Clock, start: int, wakes: seq<int>)
    requires OnGrid(c, start)
    ensures OnGrid(Run(c, wakes), start)
    decreases |wakes|
  {
    if wakes != [] {
      RunStaysOnGrid(Pass(c, wakes[0], true), start, wakes[1..]);
    }
  }

  /** Every pass emits one block, whatever it skips, and none of the numbers ever falls. */
  lemma {:induction false} EveryPassEmits(c: Clock, wakes: seq<int>)
    ensures var d := Run(c, wakes); d.emitted == c.emitted + |wakes| && d.skipped >= c.skipped
    decreases |wakes|
  {
    if wakes != [] {
      EveryPassEmits(Pass(c, wakes[0], true), wakes[1..]);
    }
  }

  /** A wake-up is counted as late from 5 ms on, and the greatest lateness is kept; a pass that finds the engine stopped
      leaves deadline and blocks alone. */
  lemma LatenessCounted(c: Clock, now: int, running: bool)
    ensures var d := Pass(c, now, running);
            && d.late == (if now - c.deadline >= 5000 then c.late + 1 else c.late)
            && d.maxLate == (if now - c.deadline >= 5000 && now - c.deadline > c.maxLate then now - c.deadline else c.maxLate)
            && (!running ==> d.deadline == c.deadline && d.emitted == c.emitted)
  {
  }

  /** A pass leaves the clock in step with the time exactly when the sleep before it did not return early. */
  lemma InStepIffNotEarly(c: Clock, start: int, now: int)
    requires OnGrid(c, start)
    ensures var d := Pass(c, now, true);
            && (now >= c.deadline <==> d.emitted + d.skipped == (now - start) / PERIOD)
            && (now >= c.deadline <==> now < d.deadline <= now + PERIOD)
  {
    var blocks := c.emitted + c.skipped;
    if now >= c.deadline {
      QuotientIs(now - start, blocks + 1 + Missed(c, now), PERIOD);
    } else {
      var q := (now - start) / PERIOD;
      Grows(q, blocks + 1, PERIOD);
    }
  }

  /** The clock never drifts: whatever the pattern of late wake-ups, after every pass the blocks emitted and skipped
      are the periods that have gone by, and the next deadline is within one period. */
  lemma NeverDrifts(start: int, wakes: seq<int>, now: int)
    requires now >= Run(Started(start), wakes).deadline
    ensures var d := Run(Started(start), wakes + [now]);
            d.emitted + d.skipped == (now - start) / PERIOD && now < d.deadline <= now + PERIOD
  {
    RunStaysOnGrid(Started(start), start, wakes);
    RunExtends(Started(start), wakes, now);
    InStepIffNotEarly(Run(Started(start), wakes), start, now);
  }

  lemma {:induction false} RunExtends(c: Clock, wakes: seq<int>, now: int)
    ensures Run(c, wakes + [now]) == Pass(Run(c, wakes), now, true)
    decreases |wakes|
  {
    if wakes == [] {
      assert [now][1..] == [] && wakes + [now] == [now];
    } else {
      assert (wakes + [now])[1..] == wakes[1..] + [now];
      RunExtends(Pass(c, wakes[0], true), wakes[1..], now);
    }
  }

  class MixerThread {
    var deadline: int
    var emitted: nat
    var skipped: nat
    var late: nat
    var maxLate: nat

    ghost function View(): Clock
      reads this
    {
      Clock(deadline, emitted, skipped, late, maxLate)
    }

    constructor (now: int)
      ensures View() == Started(now)
    {
      deadline := now + PERIOD;
      emitted, skipped, late, maxLate := 0, 0, 0, 0;
    }

    /** One pass of the thread's loop after its sleep; `blocks` says whether it went on to emit a block. */
    method Wake(now: int, running: bool) returns (blocks: bool)
      modifies this
      ensures View() == Pass(old(View()), now, running) && blocks == running
    {
      if now - deadline >= LATE {
        late := late + 1;
        maxLate := if now - deadline > maxLate then now - deadline else maxLate;
      }
      var elapsed := if now > deadline then (now - deadline) / PERIOD else 0;
      skipped := skipped + elapsed;
      if !running {
        return false;
      }
      deadline := deadline + (elapsed + 1) * PERIOD;
      emitted := emitted + 1;
      return true;
    }
  }
}
