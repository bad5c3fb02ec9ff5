/** The manager's spawn rate limiter: restart history kept outside the reusable
    process slots, in a fixed table of guards keyed by what is started. */
module SpawnGuard {

  const GUARDS: nat := 128
  const WINDOW: nat := 30_000_000  // microseconds
  const BLOCK: nat := 60_000_000
  const STARTS: nat := 3

  datatype Guard = Guard(key: string, started: nat, blockedUntil: nat, attempts: nat)

  const Unused := Guard("", 0, 0, 0)

  // ---------------------------------------------------------------- one guard

  /** The guard in the window that an attempt at `now` falls into; a start in the future reads as a window long past. */
  function Rolled(g: Guard, now: nat): Guard {
    if g.started == 0 || now < g.started || now - g.started >= WINDOW then g.(started := now, attempts := 0) else g
  }

  predicate Permits(g: Guard, now: nat) {
    now >= g.blockedUntil && Rolled(g, now).attempts < STARTS
  }

  function Attempt(g: Guard, now: nat): Guard {
    var r := Rolled(g, now);
    if now < g.blockedUntil then g
    else if r.attempts >= STARTS then r.(blockedUntil := now + BLOCK)
    else r.(attempts := r.attempts + 1)
  }

  /** The times of the permitted starts among the attempts made at the given times. */
  function Starts(g: Guard, times: seq<nat>): seq<nat>
    decreases |times|
  {
    if times == [] then []
    else Own(g, times[0]) + Starts(Attempt(g, times[0]), times[1..])
  }

  predicate Monotone(times: seq<nat>) {
    forall i, j :: 0 <= i < j < |times| ==> times[i] <= times[j]
  }

  /** Any six consecutive starts span a whole window, so no half-open interval of that length holds more than five. */
  predicate AtMostFive(starts: seq<nat>) {
    forall i :: 0 <= i && i + 5 < |starts| ==> starts[i] + WINDOW <= starts[i + 5]
  }

  /** What a guard knows of the starts it has permitted up to `now`: the current window holds at most three of them,
      the first at its very start, and the window before it lies a whole window back. */
  ghost predicate Explains(g: Guard, starts: seq<nat>, now: nat) {
    var n, a := |starts|, g.attempts;
    && Monotone(starts) && AtMostFive(starts)
    && a <= STARTS && a <= n && (n > 0 <==> a > 0) && (n > 0 <==> g.started > 0)
    && (n > 0 ==> starts[n - 1] <= now && g.started <= now && starts[n - a] == g.started)
    && (n - a >= 3 ==> starts[n - a - 3] + WINDOW <= g.started)
    && (g.blockedUntil <= g.started || g.blockedUntil >= g.started + BLOCK)
  }

  /** The new start comes a whole window after the fifth start before it. */
  lemma FifthStartBack(g: Guard, starts: seq<nat>, before: nat, now: nat)
    requires Explains(g, starts, before) && before <= now && Permits(g, now) && |starts| >= 5
    ensures starts[|starts| - 5] + WINDOW <= now
  {
    var n := |starts|;
    if Rolled(g, now) == g {
      assert n - 5 <= n - g.attempts - 3;
    } else {
      assert n - 5 < n - g.attempts;
    }
  }

  lemma StartAppended(starts: seq<nat>, now: nat)
    requires Monotone(starts) && AtMostFive(starts)
    requires |starts| > 0 ==> starts[|starts| - 1] <= now
    requires |starts| >= 5 ==> starts[|starts| - 5] + WINDOW <= now
    ensures Monotone(starts + [now]) && AtMostFive(starts + [now])
  {
    var more, n := starts + [now], |starts|;
    forall i, j | 0 <= i < j < |more| ensures more[i] <= more[j] {
      if j == n && i < n - 1 { assert starts[i] <= starts[n - 1]; }
    }
    forall i | 0 <= i && i + 5 < |more| ensures more[i] + WINDOW <= more[i + 5] {
      if i + 5 < n { assert starts[i] + WINDOW <= starts[i + 5]; }
    }
  }

  lemma WindowBefore(g: Guard, starts: seq<nat>, before: nat, now: nat)
    requires Explains(g, starts, before) && before <= now && 0 < now && Permits(g, now)
    ensures var h, n := Attempt(g, now), |starts| + 1;
            && h.attempts <= n && (starts + [now])[n - h.attempts] == h.started
            && (n - h.attempts >= 3 ==> (starts + [now])[n - h.attempts - 3] + WINDOW <= h.started)
  {
    var n := |starts|;
    if Rolled(g, now) != g && n >= 3 {
      assert starts[n - 3] <= starts[n - g.attempts] by {
        assert n - 3 <= n - g.attempts;
      }
    }
  }

  lemma StartExplained(g: Guard, starts: seq<nat>, before: nat, now: nat)
    requires Explains(g, starts, before) && before <= now && 0 < now && Permits(g, now)
    ensures Explains(Attempt(g, now), starts + [now], now)
  {
    if |starts| >= 5 { FifthStartBack(g, starts, before, now); }
    StartAppended(starts, now);
    WindowBefore(g, starts, before, now);
  }

  lemma RefusalExplained(g: Guard, starts: seq<nat>, before: nat, now: nat)
    requires Explains(g, starts, before) && before <= now && 0 < now && !Permits(g, now)
    ensures Explains(Attempt(g, now), starts, now)
  {
  }

  lemma AttemptExplained(g: Guard, starts: seq<nat>, before: nat, now: nat)
    requires Explains(g, starts, before) && before <= now && 0 < now
    ensures Explains(Attempt(g, now), starts + Own(g, now), now)
  {
    if Permits(g, now) {
      StartExplained(g, starts, before, now);
    } else {
      RefusalExplained(g, starts, before, now);
      assert starts + [] == starts;
    }
  }

  /** The start that an attempt adds, if it is permitted. */
  function Own(g: Guard, now: nat): seq<nat> {
    if Permits(g, now) then [now] else []
  }

  /** At most three starts in a window, and at most five in any half-open interval of that length. */
  lemma {:induction false} SlidingBound(g: Guard, starts: seq<nat>, before: nat, times: seq<nat>)
    requires Explains(g, starts, before) && Monotone(times)
    requires times != [] ==> before <= times[0] && 0 < times[0]
    ensures AtMostFive(starts + Starts(g, times))
    decreases |times|
  {
    if times == [] {
      assert starts + [] == starts;
    } else {
      var now, later := times[0], times[1..];
      AttemptExplained(g, starts, before, now);
      TailMonotone(times);
      SlidingBound(Attempt(g, now), starts + Own(g, now), now, later);
      Regroup(starts, Own(g, now), Starts(Attempt(g, now), later));
    }
  }

  /** Read as an interval: no matter where it begins, it holds at most five starts. */
  lemma IntervalHoldsFive(starts: seq<nat>, from: nat)
    requires Monotone(starts) && AtMostFive(starts)
    ensures |set i | 0 <= i < |starts| && from <= starts[i] < from + 30_000_000| <= 5
  {
    var inside := set i | 0 <= i < |starts| && from <= starts[i] < from + WINDOW;
    if inside != {} {
      var m := FirstInside(starts, from, 0);
      var five := {m, m + 1, m + 2, m + 3, m + 4};
      forall i | i in inside ensures i in five {
        FiveApart(starts, m, i);
      }
      SubsetSize(inside, five);
    }
  }

  lemma FiveApart(starts: seq<nat>, m: nat, i: nat)
    requires Monotone(starts) && AtMostFive(starts) && m < |starts| && i < |starts|
    ensures i >= m + 5 ==> starts[m] + WINDOW <= starts[i]
  {
    if i > m + 5 { assert starts[m + 5] <= starts[i]; }
  }

  lemma FirstInside(starts: seq<nat>, from: nat, k: nat) returns (m: nat)
    requires exists i :: k <= i < |starts| && from <= starts[i] < from + WINDOW
    ensures k <= m < |starts| && from <= starts[m] < from + WINDOW
    ensures forall i :: k <= i < m ==> !(from <= starts[i] < from + WINDOW)
    decreases |starts| - k
  {
    if from <= starts[k] < from + WINDOW { m := k; } else { m := FirstInside(starts, from, k + 1); }
  }

  lemma SubsetSize<T>(a: set<T>, b: set<T>)
    requires a <= b
    ensures |a| <= |b|
  {
    assert b == a + (b - a);
  }

  lemma TailMonotone(times: seq<nat>)
    requires Monotone(times) && times != []
    ensures Monotone(times[1..]) && (times[1..] != [] ==> times[0] <= times[1..][0])
  {
  }

  lemma Regroup<T>(a: seq<T>, b: seq<T>, c: seq<T>)
    ensures a + b + c == a + (b + c)
  {
  }

  /** In a state the limiter can reach, attempts during a block are refused and do not extend it,
      and the first attempt after it is permitted. */
  lemma BlockEnds(g: Guard, starts: seq<nat>, before: nat, now: nat)
    requires Explains(g, starts, before) && before <= now && g.blockedUntil > g.started
    ensures Permits(g, now) <==> now >= g.blockedUntil
    ensures now < g.blockedUntil ==> Attempt(g, now).blockedUntil == g.blockedUntil
  {
  }

  /** No start is refused without cause: outside a block a refusal means three starts within the last 30 seconds. */
  lemma RefusalHasCause(g: Guard, starts: seq<nat>, before: nat, now: nat)
    requires Explains(g, starts, before) && before <= now && now >= g.blockedUntil && Own(g, now) == []
    ensures var n := |starts|; n >= 3 && starts[n - 3] <= starts[n - 2] <= starts[n - 1] && now < starts[n - 3] + 30_000_000
    ensures Attempt(g, now).blockedUntil == now + 60_000_000
  {
  }

  /** A guard that is not blocked and whose window is over lets three starts within 30 seconds pass and refuses the fourth;
      from then on it refuses for exactly 60 seconds, and then lets the next one pass. */
  lemma WindowAdmitsThree(g: Guard, t1: nat, t2: nat, t3: nat, t4: nat, later: nat)
    requires g.blockedUntil <= t1 && 0 < t1 <= t2 <= t3 <= t4 < t1 + 30_000_000
    requires g.started == 0 || g.started + 30_000_000 <= t1
    ensures Starts(g, [t1, t2, t3, t4]) == [t1, t2, t3]
    ensures var blocked := Attempt(Attempt(Attempt(Attempt(g, t1), t2), t3), t4);
            later >= t4 ==> Own(blocked, later) == if later < t4 + 60_000_000 then [] else [later]
  {
    var g1 := Attempt(g, t1);
    var g2 := Attempt(g1, t2);
    var g3 := Attempt(g2, t3);
    assert Own(g, t1) == [t1] && Own(g1, t2) == [t2] && Own(g2, t3) == [t3] && Own(g3, t4) == [];
    assert [t1, t2, t3, t4][1..] == [t2, t3, t4] && [t2, t3, t4][1..] == [t3, t4] && [t3, t4][1..] == [t4] && [t4][1..] == [];
    assert Starts(g3, [t4]) == [];
    assert Starts(g2, [t3, t4]) == [t3];
    assert Starts(g1, [t2, t3, t4]) == [t2, t3];
  }

  function Blank(key: string): Guard {
    Guard(key, 0, 0, 0)
  }

  ghost predicate BoundFrom(first: nat) {
    forall times :: Monotone(times) && (times != [] ==> first <= times[0]) ==> AtMostFive(Starts(Blank("k"), times))
  }

  /** The bound needs a clock that has left zero: a window that starts at time zero counts as no window at all. */
  lemma BoundIffClockPositive(first: nat)
    ensures BoundFrom(first) <==> first > 0
  {
    if first > 0 {
      forall times | Monotone(times) && (times != [] ==> first <= times[0]) ensures AtMostFive(Starts(Blank("k"), times)) {
        SlidingBound(Blank("k"), [], 0, times);
        assert [] + Starts(Blank("k"), times) == Starts(Blank("k"), times);
      }
    } else {
      var zeros := [0, 0, 0, 0, 0, 0];
      AllPermittedAtZero(Blank("k"), zeros);
      assert !(zeros[0] + WINDOW <= zeros[0 + 5]);
    }
  }

  lemma {:induction false} AllPermittedAtZero(g: Guard, times: seq<nat>)
    requires g.started == 0 && g.blockedUntil == 0 && forall i :: 0 <= i < |times| ==> times[i] == 0
    ensures Starts(g, times) == times
    decreases |times|
  {
    if times != [] {
      AllPermittedAtZero(Attempt(g, 0), times[1..]);
    }
  }

  // ---------------------------------------------------------------- the table

  /** The slot a key gets: its own, or the last empty one, or the one whose window started longest ago. */
  function Oldest(table: seq<Guard>, n: nat): (r: nat)
    requires n <= |table| && 0 < |table|
    ensures r < |table|
    ensures (exists i :: 0 <= i < n && table[i].key == "") ==> table[r].key == ""
  {
    if n == 0 then 0
    else
      var r := Oldest(table, n - 1);
      if table[n - 1].key == "" then n - 1
      else if table[r].key != "" && table[n - 1].started < table[r].started then n - 1
      else r
  }

  function IndexOf(table: seq<Guard>, key: string): (i: int)
    ensures -1 <= i < |table|
    ensures i >= 0 ==> table[i].key == key && forall k :: 0 <= k < i ==> table[k].key != key
    ensures i < 0 ==> forall k :: 0 <= k < |table| ==> table[k].key != key
  {
    IndexFrom(table, key, 0)
  }

  function IndexFrom(table: seq<Guard>, key: string, from: nat): (i: int)
    requires from <= |table| && forall k :: 0 <= k < from ==> table[k].key != key
    ensures -1 <= i < |table|
    ensures i >= 0 ==> table[i].key == key && forall k :: 0 <= k < i ==> table[k].key != key
    ensures i < 0 ==> forall k :: 0 <= k < |table| ==> table[k].key != key
    decreases |table| - from
  {
    if from == |table| then -1 else if table[from].key == key then from else IndexFrom(table, key, from + 1)
  }

  function SlotFor(table: seq<Guard>, key: string): nat
    requires 0 < |table|
  {
    if IndexOf(table, key) >= 0 then IndexOf(table, key) else Oldest(table, |table|)
  }

  /** The guard of a key, blank if the table has none. */
  function GuardOf(table: seq<Guard>, key: string): Guard {
    if IndexOf(table, key) >= 0 then table[IndexOf(table, key)] else Blank(key)
  }

  function TableAfter(table: seq<Guard>, key: string, now: nat): seq<Guard>
    requires 0 < |table|
  {
    table[SlotFor(table, key) := Attempt(GuardOf(table, key), now)]
  }

  datatype Request = Request(key: string, now: nat)

  function RunTable(table: seq<Guard>, requests: seq<Request>): (r: seq<Guard>)
    requires 0 < |table|
    ensures |r| == |table|
    decreases |requests|
  {
    if requests == [] then table else RunTable(TableAfter(table, requests[0].key, requests[0].now), requests[1..])
  }

  function TimesOf(requests: seq<Request>, key: string): seq<nat>
    decreases |requests|
  {
    if requests == [] then []
    else (if requests[0].key == key then [requests[0].now] else []) + TimesOf(requests[1..], key)
  }

  /** The starts of one key that a run of the table permits. */
  function TableStarts(table: seq<Guard>, requests: seq<Request>, key: string): seq<nat>
    requires 0 < |table|
    decreases |requests|
  {
    if requests == [] then []
    else
      var r := requests[0];
      (if r.key == key then Own(GuardOf(table, key), r.now) else [])
      + TableStarts(TableAfter(table, r.key, r.now), requests[1..], key)
  }

  function RunGuard(g: Guard, times: seq<nat>): Guard
    decreases |times|
  {
    if times == [] then g else RunGuard(Attempt(g, times[0]), times[1..])
  }

  ghost predicate UniqueKeys(table: seq<Guard>) {
    forall i, j :: 0 <= i < j < |table| && table[i].key != "" ==> table[i].key != table[j].key
  }

  /** The keys of the table are among the given ones. */
  ghost predicate KeysWithin(table: seq<Guard>, keys: set<string>) {
    forall i :: 0 <= i < |table| && table[i].key != "" ==> table[i].key in keys
  }

  lemma {:induction false} SomeSlotFree(table: seq<Guard>, keys: set<string>, n: nat)
    requires n <= |table| && UniqueKeys(table) && |keys| < n
    requires forall i :: 0 <= i < n && table[i].key != "" ==> table[i].key in keys
    ensures exists i :: 0 <= i < n && table[i].key == ""
    decreases n
  {
    var last := table[n - 1].key;
    if last != "" {
      forall i | 0 <= i < n - 1 && table[i].key != "" ensures table[i].key in keys - {last} {
        assert table[i].key != table[n - 1].key;
      }
      SomeSlotFree(table, keys - {last}, n - 1);
    }
  }

  /** While a slot is free, or the key has one, a request touches no other key's guard. */
  lemma RequestEvictsNothing(table: seq<Guard>, key: string, now: nat)
    requires 0 < |table| && UniqueKeys(table) && key != ""
    requires IndexOf(table, key) >= 0 || exists i :: 0 <= i < |table| && table[i].key == ""
    ensures UniqueKeys(TableAfter(table, key, now))
    ensures forall k :: k != "" ==>
      GuardOf(TableAfter(table, key, now), k) == if k == key then Attempt(GuardOf(table, key), now) else GuardOf(table, k)
  {
    var slot, after := SlotFor(table, key), TableAfter(table, key, now);
    assert table[slot].key == key || table[slot].key == "";
    assert after[slot].key == key;
    forall k | k != "" ensures GuardOf(after, k) == if k == key then Attempt(GuardOf(table, key), now) else GuardOf(table, k) {
      if k == key {
        FoundAt(after, slot);
      } else if IndexOf(table, k) >= 0 {
        assert after[IndexOf(table, k)] == table[IndexOf(table, k)];
        FoundAt(after, IndexOf(table, k));
      }
    }
  }

  lemma FoundAt(table: seq<Guard>, i: nat)
    requires UniqueKeys(table) && i < |table| && table[i].key != ""
    ensures IndexOf(table, table[i].key) == i
  {
    var k := IndexOf(table, table[i].key);
    assert k <= i;
  }

  /** With at most 128 different keys no guard is ever evicted: every key's guard is as if it had the table to itself. */
  lemma {:induction false} TableIsFaithful(table: seq<Guard>, requests: seq<Request>, keys: set<string>, key: string)
    requires |table| == GUARDS && UniqueKeys(table) && KeysWithin(table, keys) && |keys| <= GUARDS
    requires forall r :: r in requests ==> r.key != "" && r.key in keys
    requires key != ""
    ensures UniqueKeys(RunTable(table, requests))
    ensures GuardOf(RunTable(table, requests), key) == RunGuard(GuardOf(table, key), TimesOf(requests, key))
    ensures TableStarts(table, requests, key) == Starts(GuardOf(table, key), TimesOf(requests, key))
    decreases |requests|
  {
    if requests != [] {
      var r := requests[0];
      assert r in requests;
      if IndexOf(table, r.key) < 0 {
        SomeSlotFree(table, keys - {r.key}, GUARDS);
      }
      RequestEvictsNothing(table, r.key, r.now);
      var after := TableAfter(table, r.key, r.now);
      TableIsFaithful(after, requests[1..], keys, key);
      RunGuardStep(GuardOf(table, key), requests, key);
    }
  }

  lemma RunGuardStep(g: Guard, requests: seq<Request>, key: string)
    requires requests != []
    ensures RunGuard(g, TimesOf(requests, key)) ==
            RunGuard(if requests[0].key == key then Attempt(g, requests[0].now) else g, TimesOf(requests[1..], key))
    ensures Starts(g, TimesOf(requests, key)) ==
            (if requests[0].key == key then Own(g, requests[0].now) else [])
            + Starts(if requests[0].key == key then Attempt(g, requests[0].now) else g, TimesOf(requests[1..], key))
  {
    if requests[0].key == key {
      assert TimesOf(requests, key)[1..] == TimesOf(requests[1..], key);
    } else {
      assert TimesOf(requests, key) == TimesOf(requests[1..], key);
    }
  }

  lemma {:induction false} TimesInOrder(requests: seq<Request>, key: string, from: nat)
    requires forall i :: 0 <= i < |requests| ==> from <= requests[i].now
    requires forall i, j :: 0 <= i < j < |requests| ==> requests[i].now <= requests[j].now
    ensures Monotone(TimesOf(requests, key)) && forall i :: 0 <= i < |TimesOf(requests, key)| ==> from <= TimesOf(requests, key)[i]
    decreases |requests|
  {
    if requests != [] {
      TimesInOrder(requests[1..], key, requests[0].now);
    }
  }

  /** A limiter serving at most 128 keys on a clock that has left zero permits each of them at most five starts in any
      half-open 30 s, however the requests of the others are mixed in. */
  lemma LimiterBound(requests: seq<Request>, keys: set<string>, key: string)
    requires |keys| <= GUARDS && key != "" && forall r :: r in requests ==> r.key != "" && r.key in keys
    requires forall i :: 0 <= i < |requests| ==> 0 < requests[i].now
    requires forall i, j :: 0 <= i < j < |requests| ==> requests[i].now <= requests[j].now
    ensures AtMostFive(TableStarts(seq(GUARDS, _ => Unused), requests, key))
  {
    var table := seq(GUARDS, _ => Unused);
    TableIsFaithful(table, requests, keys, key);
    TimesInOrder(requests, key, 1);
    assert GuardOf(table, key) == Blank(key);
    SlidingBound(Blank(key), [], 0, TimesOf(requests, key));
    assert [] + Starts(Blank(key), TimesOf(requests, key)) == Starts(Blank(key), TimesOf(requests, key));
  }

  // ---------------------------------------------------------------- the limiter object

  class Limiter {
    const guards: array<Guard>

    ghost predicate Valid()
      reads this, guards
    {
      guards.Length == GUARDS
    }

    constructor ()
      ensures Valid() && fresh(guards) && forall i :: 0 <= i < GUARDS ==> guards[i] == Unused
    {
      guards := new Guard[GUARDS](_ => Unused);
    }

    method Permitted(key: string, now: nat) returns (ok: bool)
      requires Valid() && key != ""
      modifies guards
      ensures Valid() && guards[..] == TableAfter(old(guards[..]), key, now)
      ensures ok <==> Permits(GuardOf(old(guards[..]), key), now)
    {
      ghost var table := guards[..];
      var slot, oldest, i := -1, 0, 0;
      while i < GUARDS && slot < 0
        invariant 0 <= i <= GUARDS && guards[..] == table
        invariant slot < 0 ==> oldest == Oldest(table, i) && forall k :: 0 <= k < i ==> table[k].key != key
        invariant slot >= 0 ==> slot == IndexOf(table, key)
        decreases GUARDS - i, if slot < 0 then 1 else 0
      {
        if guards[i].key == key {
          slot := i;
        } else {
          if guards[i].key == "" {
            oldest := i;
          } else if guards[oldest].key != "" && guards[i].started < guards[oldest].started {
            oldest := i;
          }
          i := i + 1;
        }
      }
      if slot < 0 {
        slot := oldest;
        guards[slot] := Guard(key, 0, 0, 0);
      }
      assert slot == SlotFor(table, key) && guards[slot] == GuardOf(table, key);
      ok := Decide(slot, now);
    }

    method Decide(slot: nat, now: nat) returns (ok: bool)
      requires Valid() && slot < GUARDS
      modifies guards
      ensures Valid() && guards[..] == old(guards[..])[slot := Attempt(old(guards[slot]), now)]
      ensures ok <==> Permits(old(guards[slot]), now)
    {
      var g := guards[slot];
      if now < g.blockedUntil {
        return false;
      }
      if g.started == 0 || now < g.started || now - g.started >= WINDOW {
        g := g.(started := now, attempts := 0);
      }
      if g.attempts >= STARTS {
        guards[slot] := g.(blockedUntil := now + BLOCK);
        return false;
      }
      guards[slot] := g.(attempts := g.attempts + 1);
      return true;
    }
  }
}
