/** The table of media processes: shared codec instances with references, encoders kept warm for a while after
    their last user, codec switches that start the new process before they release the old one, and the audio
    endpoints that share the table and its counter. */
module ProcessSlots {

  const UUID_SIZE: nat := 64

  datatype Option<T> = None | Some(value: T)

  /** The last pause or resume command sent to a process. */
  datatype Order = Nothing | Pause | Resume

  /** A slot: free, an audio endpoint that the codec functions leave alone, or a codec process. */
  datatype Slot =
    | Free
    | Processor(space: string, name: string)
    | Codec(id: string, tx: bool, uuid: string, local: bool, refs: nat, deadline: nat, since: nat, chan: nat,
            last: Order, replay: bool, cached: nat)

  datatype Table = Table(slots: seq<Slot>, active: nat, next: nat)

  /** What becomes of a new process: it runs, it is refused or does not start, or its pipes cannot be attached. */
  datatype Spawn = Spawned | Refused | Unattached

  // ---------------------------------------------------------------- searching

  /** What a search looks for. */
  datatype Key =
    | Vacant
    | Endpoint(space: string, name: string)
    | Bound(id: string, tx: bool, uuid: string)
    | Any(id: string, tx: bool)
    | Unbound(id: string, tx: bool)

  predicate Matches(k: Key, s: Slot) {
    match k
    case Vacant => s.Free?
    case Endpoint(space, name) => s.Processor? && s.space == space && s.name == name
    case Bound(id, tx, uuid) => s.Codec? && s.tx == tx && s.id == id && s.uuid == uuid
    case Any(id, tx) => s.Codec? && s.id == id && s.tx == tx
    case Unbound(id, tx) => s.Codec? && s.tx == tx && s.uuid == "" && s.id == id
  }

  /** The first slot that matches, or the table's size. */
  function First(slots: seq<Slot>, k: Key): (i: nat)
    ensures i <= |slots| && (i < |slots| ==> Matches(k, slots[i]))
    ensures forall j :: 0 <= j < i ==> !Matches(k, slots[j])
  {
    if slots == [] || Matches(k, slots[0]) then 0 else 1 + First(slots[1..], k)
  }

  function Found(slots: seq<Slot>, k: Key): (r: Option<nat>)
    ensures r.Some? ==> r.value < |slots| && Matches(k, slots[r.value])
    ensures r.None? ==> forall j :: 0 <= j < |slots| ==> !Matches(k, slots[j])
  {
    if First(slots, k) < |slots| then Some(First(slots, k)) else None
  }

  ghost predicate Alike(a: seq<Slot>, b: seq<Slot>, k: Key) {
    |a| == |b| && forall i :: 0 <= i < |a| ==> (Matches(k, a[i]) <==> Matches(k, b[i]))
  }

  lemma NoLater(a: seq<Slot>, b: seq<Slot>, k: Key)
    requires Alike(a, b, k)
    ensures First(a, k) <= First(b, k)
  {
    var j := First(b, k);
    if j < |b| {
      assert Matches(k, a[j]);
    }
  }

  /** A search depends only on which slots match. */
  lemma FirstAlike(a: seq<Slot>, b: seq<Slot>, k: Key)
    requires Alike(a, b, k)
    ensures First(a, k) == First(b, k) && Found(a, k) == Found(b, k)
  {
    NoLater(a, b, k);
    NoLater(b, a, k);
  }

  lemma PutIsFound(slots: seq<Slot>, i: nat, s: Slot, k: Key)
    requires i < |slots| && Found(slots, k).None? && Matches(k, s)
    ensures Found(slots[i := s], k) == Some(i)
  {
    var changed := slots[i := s];
    assert Matches(k, changed[i]);
    forall j | 0 <= j < i ensures !Matches(k, changed[j]) {
      assert changed[j] == slots[j];
    }
  }

  lemma SamePlace(slots: seq<Slot>, i: nat, s: Slot, k: Key)
    requires i < |slots| && (Matches(k, slots[i]) <==> Matches(k, s))
    ensures Found(slots[i := s], k) == Found(slots, k)
  {
    FirstAlike(slots, slots[i := s], k);
  }

  function FindChannel(t: Table, id: string, tx: bool, uuid: string): Option<nat> {
    if uuid == "" then None else Found(t.slots, Bound(id, tx, uuid))
  }

  function FindInstance(t: Table, id: string, tx: bool): Option<nat> {
    if t.active == 0 then None else Found(t.slots, Any(id, tx))
  }

  function Given(uuid: Option<string>): string {
    if uuid.Some? then uuid.value else ""
  }

  function FindFor(t: Table, id: string, tx: bool, uuid: Option<string>): Option<nat> {
    if Given(uuid) != "" then FindChannel(t, id, tx, uuid.value) else FindInstance(t, id, tx)
  }

  // ---------------------------------------------------------------- creating and destroying

  function Less(n: nat): nat {
    if n > 0 then n - 1 else 0
  }

  /** The identity that fits a slot. */
  function Clip(uuid: string): string {
    if |uuid| < UUID_SIZE then uuid else uuid[..UUID_SIZE - 1]
  }

  function NewSlot(id: string, tx: bool, uuid: string, chan: nat): Slot {
    Codec(id, tx, Clip(uuid), false, 0, 0, 0, chan, Nothing, false, 0)
  }

  datatype Made = Made(table: Table, at: Option<nat>)

  predicate Usable(m: Made, id: string, tx: bool) {
    m.at.Some? ==> m.at.value < |m.table.slots| && Matches(Any(id, tx), m.table.slots[m.at.value])
  }

  /** A new process in the first free slot. When its pipes cannot be attached, the slot is given back twice. */
  function Create(t: Table, id: string, tx: bool, uuid: string, spawn: Spawn): (m: Made)
    ensures Usable(m, id, tx)
  {
    if t.active >= |t.slots| || Found(t.slots, Vacant).None? then Made(t, None)
    else
      var i := Found(t.slots, Vacant).value;
      match spawn
      case Spawned => Made(Table(t.slots[i := NewSlot(id, tx, uuid, t.next)], t.active + 1, t.next + 1), Some(i))
      case Refused => Made(t.(next := t.next + 1), None)
      case Unattached => Made(t.(active := Less(t.active), next := t.next + 1), None)
  }

  function Destroy(t: Table, i: nat): Table
    requires i < |t.slots|
  {
    if t.slots[i].Free? then t else t.(slots := t.slots[i := Free], active := Less(t.active))
  }

  // ---------------------------------------------------------------- starting and stopping

  /** A user more: a warm encoder is woken up. */
  function Referenced(s: Slot): Slot
    requires s.Codec?
  {
    var woken := if s.tx && s.refs == 0 && s.deadline > 0 then s.(replay := true, last := Resume) else s;
    woken.(deadline := 0, since := 0, refs := s.refs + 1)
  }

  /** The instance that is already there for a user. */
  function Known(t: Table, id: string, tx: bool, uuid: Option<string>): (r: Option<nat>)
    ensures r.Some? ==> r.value < |t.slots| && Matches(Any(id, tx), t.slots[r.value])
  {
    FindFor(t, id, tx, uuid)
  }

  /** A new instance; a user who names an empty channel gets a second try. */
  function Fresh(t: Table, id: string, tx: bool, uuid: Option<string>, first: Spawn, second: Spawn): (m: Made)
    ensures Usable(m, id, tx)
  {
    if Given(uuid) != "" then Create(t, id, tx, uuid.value, first)
    else
      var made := Create(t, id, tx, "", first);
      if made.at.Some? || uuid.None? then made else Create(made.table, id, tx, "", second)
  }

  function Obtain(t: Table, id: string, tx: bool, uuid: Option<string>, first: Spawn, second: Spawn): (m: Made)
    ensures Usable(m, id, tx)
  {
    var known := Known(t, id, tx, uuid);
    if known.Some? then Made(t, known) else Fresh(t, id, tx, uuid, first, second)
  }

  datatype Started = Started(table: Table, chan: Option<nat>)

  function Start(t: Table, id: string, tx: bool, uuid: Option<string>, first: Spawn, second: Spawn): Started {
    if id == "" then Started(t, None)
    else
      var m := Obtain(t, id, tx, uuid, first, second);
      if m.at.None? then Started(m.table, None)
      else
        var s := m.table.slots[m.at.value];
        Started(m.table.(slots := m.table.slots[m.at.value := Referenced(s)]), Some(s.chan))
  }

  /** The last user of an instance is gone. */
  function Idle(t: Table, i: nat, now: nat, hang: nat): Table
    requires i < |t.slots| && t.slots[i].Codec?
  {
    var s := t.slots[i];
    if s.tx && hang > 0 then
      t.(slots := t.slots[i := s.(refs := 0, last := Pause, since := now, deadline := now + hang)])
    else Destroy(t, i)
  }

  function Release(t: Table, i: nat, now: nat, hang: nat): Table
    requires i < |t.slots| && t.slots[i].Codec?
  {
    var s := t.slots[i];
    if s.refs > 1 then t.(slots := t.slots[i := s.(refs := s.refs - 1)]) else Idle(t, i, now, hang)
  }

  /** The instance to stop: a channel may also give up an instance that is bound to none. */
  function ToStop(t: Table, id: string, tx: bool, uuid: Option<string>): (r: Option<nat>)
    ensures r.Some? ==> r.value < |t.slots| && Matches(Any(id, tx), t.slots[r.value])
  {
    if FindFor(t, id, tx, uuid).Some? || Given(uuid) == "" then FindFor(t, id, tx, uuid)
    else Found(t.slots, Unbound(id, tx))
  }

  function Stop(t: Table, id: string, tx: bool, uuid: Option<string>, now: nat, hang: nat): Table {
    if id == "" || ToStop(t, id, tx, uuid).None? then t else Release(t, ToStop(t, id, tx, uuid).value, now, hang)
  }

  /** Stops at once, whoever still uses the instance. */
  function Kill(t: Table, id: string, tx: bool, uuid: Option<string>): Table {
    if id == "" || FindFor(t, id, tx, uuid).None? then t else Destroy(t, FindFor(t, id, tx, uuid).value)
  }

  /** A client's own codec: made first, then marked, then started like any other. */
  function StartLocal(t: Table, id: string, tx: bool, identity: string, first: Spawn, second: Spawn): Started {
    if |id| != 4 || identity == "" then Started(t, None)
    else
      var known := FindChannel(t, id, tx, identity);
      var m := if known.Some? then Made(t, known) else Create(t, id, tx, identity, first);
      if m.at.None? then Started(m.table, None)
      else
        var s := m.table.slots[m.at.value].(local := true);
        Start(m.table.(slots := m.table.slots[m.at.value := s]), id, tx, Some(identity), second, second)
  }

  // ---------------------------------------------------------------- switching

  /** The new instance is to repeat its stream headers if it has any. */
  function Replaying(t: Table, id: string, tx: bool, uuid: Option<string>): Table {
    var at := Known(t, id, tx, uuid);
    if at.Some? && t.slots[at.value].cached > 0 then t.(slots := t.slots[at.value := t.slots[at.value].(replay := true)])
    else t
  }

  datatype Choice = Choice(was: Option<string>, id: string, tx: bool, uuid: Option<string>)

  /** The codec that a switch leaves behind. */
  predicate Leaves(c: Choice) {
    c.was.Some? && |c.was.value| == 4 && c.was.value != c.id
  }

  predicate Stays(c: Choice) {
    c.was.Some? && c.was.value == c.id
  }

  /** The new codec is started first; only then the old one is released. */
  function Switch(t: Table, c: Choice, now: nat, hang: nat, first: Spawn, second: Spawn): Started {
    if |c.id| != 4 then Started(t, None)
    else
      var at := Known(t, c.id, c.tx, c.uuid);
      if Stays(c) && at.Some? && t.slots[at.value].refs > 0 then Started(t, Some(t.slots[at.value].chan))
      else
        var s := Start(t, c.id, c.tx, c.uuid, first, second);
        if s.chan.None? || (Stays(c) && at.Some?) then s
        else Started(Changeover(s.table, c, now, hang), s.chan)
  }

  /** Once the new instance runs: it repeats its headers, and the old one is released. */
  function Changeover(t: Table, c: Choice, now: nat, hang: nat): Table {
    var u := Replaying(t, c.id, c.tx, c.uuid);
    if Leaves(c) then Stop(u, c.was.value, c.tx, c.uuid, now, hang) else u
  }

  // ---------------------------------------------------------------- sweeping

  /** As many users as the channel has now; a warm encoder is woken up. */
  function Demanded(s: Slot, users: nat): Slot
    requires s.Codec?
  {
    var woken := if s.tx && s.refs == 0 && s.deadline > 0 then s.(replay := true, last := Resume) else s;
    woken.(refs := users, deadline := 0, since := 0)
  }

  predicate Expired(s: Slot, now: nat) {
    s.Codec? && s.refs == 0 && s.deadline > 0 && now >= s.deadline
  }

  /** Instances that a client owns or that belong to no channel are only retired. */
  predicate Unswept(s: Slot) {
    s.Codec? && (s.local || s.uuid == "")
  }

  function SweepAt(t: Table, i: nat, users: nat, now: nat, hang: nat): Table
    requires i < |t.slots|
  {
    var s := t.slots[i];
    if !s.Codec? then t
    else if !Unswept(s) && users > 0 then t.(slots := t.slots[i := Demanded(s, users)])
    else if !Unswept(s) && s.refs > 0 then Idle(t, i, now, hang)
    else if Expired(s, now) then Destroy(t, i)
    else t
  }

  function SweepFrom(t: Table, i: nat, users: seq<nat>, now: nat, hang: nat): (r: Table)
    requires |users| == |t.slots|
    ensures |r.slots| == |t.slots|
    decreases |t.slots| - i
  {
    if i >= |t.slots| then t else SweepFrom(SweepAt(t, i, users[i], now, hang), i + 1, users, now, hang)
  }

  /** One pass over all slots; users tells how many each slot's channel has for this codec. */
  function Sweep(t: Table, users: seq<nat>, now: nat, hang: nat): Table
    requires |users| == |t.slots|
  {
    if t.active == 0 then t else SweepFrom(t, 0, users, now, hang)
  }

  // ---------------------------------------------------------------- audio endpoints

  const NAME_SIZE: nat := 64
  const SPACE_SIZE: nat := 8
  const SPACES := {"proc", "src", "sink", "recode"}

  /** What an endpoint is for; capture and playback have name spaces of their own. */
  datatype Use = Capture | Playback | Processing

  function SpaceOf(use: Use): string {
    match use
    case Capture => "src"
    case Playback => "sink"
    case Processing => "proc"
  }

  datatype Identity = Identity(space: string, name: string)

  /** Where the first dot is, or the length. */
  function Dot(name: string): (i: nat)
    ensures i <= |name| && (i < |name| ==> name[i] == '.')
  {
    if name == "" || name[0] == '.' then 0 else 1 + Dot(name[1..])
  }

  /** An endpoint's name may begin with its name space and a dot. */
  function IdentityOf(name: string, default: string): Option<Identity> {
    var dot := Dot(name);
    if name == "" || (dot < |name| && (dot == 0 || dot >= SPACE_SIZE || dot + 1 == |name|)) then None
    else
      var r := if dot < |name| then Identity(name[..dot], name[dot + 1..]) else Identity(default, name);
      if r.space in SPACES && |r.name| < NAME_SIZE then Some(r) else None
  }

  predicate Plain(name: string) {
    forall c :: c in name ==> 'a' <= c <= 'z' || 'A' <= c <= 'Z' || '0' <= c <= '9' || c in "_-."
  }

  function FindProcessor(t: Table, name: string, default: string): (r: Option<nat>)
    ensures r.Some? ==> r.value < |t.slots| && t.slots[r.value].Processor?
  {
    var n := IdentityOf(name, default);
    if n.None? then None else Found(t.slots, Endpoint(n.value.space, n.value.name))
  }

  predicate Acceptable(t: Table, name: string, use: Use) {
    var n := IdentityOf(name, SpaceOf(use));
    && |name| < NAME_SIZE && n.Some? && n.value.space == SpaceOf(use) && Plain(n.value.name)
    && FindProcessor(t, name, SpaceOf(use)).None?
  }

  datatype Opened = Opened(table: Table, ok: bool)

  /** A new endpoint under a name that is not in use; one that does not come up gives its slot back once. */
  function StartProcessor(t: Table, name: string, use: Use, spawn: Spawn): Opened {
    if !Acceptable(t, name, use) || !Tries(t) then Opened(t, false)
    else if !spawn.Spawned? then Opened(t.(next := t.next + 1), false)
    else
      var i, n := Found(t.slots, Vacant).value, IdentityOf(name, SpaceOf(use)).value;
      Opened(Table(t.slots[i := Processor(n.space, n.name)], t.active + 1, t.next + 1), true)
  }

  /** The endpoint that a name without name space means, by order of preference. */
  function AnyProcessor(t: Table, name: string): (r: Option<nat>)
    ensures r.Some? ==> r.value < |t.slots| && t.slots[r.value].Processor?
  {
    if FindProcessor(t, name, "proc").Some? then FindProcessor(t, name, "proc")
    else if FindProcessor(t, name, "src").Some? then FindProcessor(t, name, "src")
    else if FindProcessor(t, name, "sink").Some? then FindProcessor(t, name, "sink")
    else FindProcessor(t, name, "recode")
  }

  function StopProcessor(t: Table, name: string): Opened {
    var i := AnyProcessor(t, name);
    if i.None? then Opened(t, false) else Opened(Destroy(t, i.value), true)
  }

  lemma {:induction false} NoDot(name: string)
    requires '.' !in name
    ensures Dot(name) == |name|
  {
    if name != "" {
      NoDot(name[1..]);
    }
  }

  /** Whether an endpoint with a plain name starts: exactly if none of that name space has it, there is room and the
      process spawns; it then has the first free slot. */
  lemma EndpointStartsIff(t: Table, name: string, use: Use, spawn: Spawn)
    requires name != "" && |name| < 64
    requires forall c :: c in name ==> 'a' <= c <= 'z' || 'A' <= c <= 'Z' || '0' <= c <= '9' || c == '_' || c == '-'
    ensures var r := StartProcessor(t, name, use, spawn);
            var space := if use == Capture then "src" else if use == Playback then "sink" else "proc";
            && (r.ok <==> && spawn == Spawned && t.active < |t.slots| && (exists k :: 0 <= k < |t.slots| && t.slots[k].Free?)
                          && forall k :: 0 <= k < |t.slots| ==> t.slots[k] != Processor(space, name))
            && (r.ok ==> exists k :: 0 <= k < |t.slots| && t.slots[k].Free? && r.table.slots == t.slots[k := Processor(space, name)])
            && (!r.ok ==> r.table.slots == t.slots)
  {
    var space := if use == Capture then "src" else if use == Playback then "sink" else "proc";
    NoDot(name);
    assert IdentityOf(name, space) == Some(Identity(space, name));
    assert "_-."[0] == '_' && "_-."[1] == '-';
    assert Plain(name);
    assert forall k :: 0 <= k < |t.slots| ==> (Matches(Endpoint(space, name), t.slots[k]) <==> t.slots[k] == Processor(space, name));
    assert forall k :: 0 <= k < |t.slots| ==> (Matches(Vacant, t.slots[k]) <==> t.slots[k].Free?);
  }

  lemma {:induction false} FirstDot(space: string, name: string)
    requires '.' !in space
    ensures Dot(space + "." + name) == |space|
    decreases |space|
  {
    if space != "" {
      assert (space + "." + name)[1..] == space[1..] + "." + name;
      FirstDot(space[1..], name);
    }
  }

  /** A name may begin with the endpoint's own name space, which makes no difference, but with no other. */
  lemma EndpointNamed(t: Table, space: string, name: string, use: Use, spawn: Spawn)
    requires space != "" && '.' !in space && name != "" && '.' !in name && |space| + 1 + |name| < 64
    ensures var own := if use == Capture then "src" else if use == Playback then "sink" else "proc";
            StartProcessor(t, space + "." + name, use, spawn) ==
            if space == own then StartProcessor(t, name, use, spawn) else Opened(t, false)
  {
    var full := space + "." + name;
    FirstDot(space, name);
    NoDot(name);
    assert full[..|space|] == space && full[|space| + 1..] == name;
    PlainIdentity(name, use);
    SameNamed(t, space, name, full, use);
  }

  lemma PlainIdentity(name: string, use: Use)
    requires name != "" && |name| < 64 && Dot(name) == |name|
    ensures IdentityOf(name, SpaceOf(use)) == Some(Identity(SpaceOf(use), name))
  {
  }

  lemma SameNamed(t: Table, space: string, name: string, full: string, use: Use)
    requires |full| < 64 && |name| < 64 && IdentityOf(name, SpaceOf(use)) == Some(Identity(SpaceOf(use), name))
    requires IdentityOf(full, SpaceOf(use)).Some? ==> IdentityOf(full, SpaceOf(use)).value == Identity(space, name)
    requires space == SpaceOf(use) ==> IdentityOf(full, SpaceOf(use)) == Some(Identity(space, name))
    ensures Acceptable(t, full, use) <==> space == SpaceOf(use) && Acceptable(t, name, use)
  {
  }

  lemma EndpointIsFound(t: Table, name: string, use: Use, spawn: Spawn)
    requires StartProcessor(t, name, use, spawn).ok
    ensures FindProcessor(StartProcessor(t, name, use, spawn).table, name, SpaceOf(use)) == Found(t.slots, Vacant)
  {
    var i, n := Found(t.slots, Vacant).value, IdentityOf(name, SpaceOf(use)).value;
    PutIsFound(t.slots, i, Processor(n.space, n.name), Endpoint(n.space, n.name));
  }

  lemma FullNameIsFirst(t: Table, name: string, use: Use)
    requires Dot(name) < |name| && FindProcessor(t, name, SpaceOf(use)).Some?
    ensures AnyProcessor(t, name) == FindProcessor(t, name, SpaceOf(use))
  {
  }

  /** A stop by the full name of a new endpoint gives the table back as it was, but for the channel number. */
  lemma EndpointIsGivenBack(t: Table, name: string, use: Use, spawn: Spawn)
    requires StartProcessor(t, name, use, spawn).ok && Dot(name) < |name|
    ensures StopProcessor(StartProcessor(t, name, use, spawn).table, name) == Opened(t.(next := t.next + 1), true)
  {
    EndpointIsFound(t, name, use, spawn);
    FullNameIsFirst(StartProcessor(t, name, use, spawn).table, name, use);
    var n := IdentityOf(name, SpaceOf(use)).value;
    FreedAgain(t, Found(t.slots, Vacant).value, Processor(n.space, n.name));
  }

  lemma FreedAgain(t: Table, i: nat, s: Slot)
    requires i < |t.slots| && t.slots[i].Free? && !s.Free?
    ensures Destroy(Table(t.slots[i := s], t.active + 1, t.next + 1), i) == t.(next := t.next + 1)
  {
    assert t.slots[i := s][i := Free] == t.slots;
  }

  // ---------------------------------------------------------------- what each slot may look like

  /** An encoder waits for its deadline exactly while it is paused, and then nobody uses it. */
  predicate Warm(s: Slot) {
    s.Codec? ==> (s.deadline > 0 <==> s.last == Pause) && (s.deadline > 0 ==> s.tx && s.refs == 0)
  }

  /** Referenced, or kept warm: nothing else is to stay in the table. */
  predicate Held(s: Slot) {
    s.Codec? ==> s.refs > 0 || s.deadline > 0
  }

  predicate Sane(s: Slot) {
    Warm(s) && (s.Codec? ==> s.chan > 0 && |s.uuid| < UUID_SIZE)
  }

  ghost predicate AllSane(t: Table) {
    t.next > 0 && forall i :: 0 <= i < |t.slots| ==> Sane(t.slots[i])
  }

  ghost predicate AllHeld(t: Table) {
    forall i :: 0 <= i < |t.slots| ==> Held(t.slots[i])
  }

  ghost predicate Counted(t: Table) {
    t.active == Occupied(t.slots)
  }

  function Occupied(slots: seq<Slot>): (n: nat)
    ensures n <= |slots|
  {
    if slots == [] then 0 else (if slots[0].Free? then 0 else 1) + Occupied(slots[1..])
  }

  lemma {:induction false} OccupiedChange(slots: seq<Slot>, i: nat, s: Slot)
    requires i < |slots|
    ensures Occupied(slots[i := s])
         == Occupied(slots) + (if s.Free? then 0 else 1) - if slots[i].Free? then 0 else 1
  {
    if i == 0 {
      assert slots[i := s][1..] == slots[1..];
    } else {
      OccupiedChange(slots[1..], i - 1, s);
      assert slots[i := s][1..] == slots[1..][i - 1 := s];
    }
  }

  lemma {:induction false} OccupiedSome(slots: seq<Slot>, i: nat)
    requires i < |slots| && !slots[i].Free?
    ensures Occupied(slots) > 0
  {
    if i > 0 {
      OccupiedSome(slots[1..], i - 1);
    }
  }

  // ---------------------------------------------------------------- the counter

  /** The spawn is tried: there is room by the counter and a free slot. */
  predicate Tries(t: Table) {
    t.active < |t.slots| && Found(t.slots, Vacant).Some?
  }

  /** A failed attachment that lowers the counter once too often. */
  predicate Slips(t: Table, spawn: Spawn) {
    Tries(t) && spawn == Unattached && t.active > 0
  }

  ghost predicate Behind(t: Table) {
    t.active < Occupied(t.slots)
  }

  /** The counter stays right exactly if the pipes are attached or no other slot was in use. */
  lemma CreateCounts(t: Table, id: string, tx: bool, uuid: string, spawn: Spawn)
    requires Counted(t)
    ensures Counted(Create(t, id, tx, uuid, spawn).table) <==> !Slips(t, spawn)
    ensures Slips(t, spawn) ==> Behind(Create(t, id, tx, uuid, spawn).table)
  {
    if Tries(t) {
      OccupiedChange(t.slots, Found(t.slots, Vacant).value, NewSlot(id, tx, uuid, t.next));
    }
  }

  lemma CreateBehind(t: Table, id: string, tx: bool, uuid: string, spawn: Spawn)
    requires Behind(t)
    ensures Behind(Create(t, id, tx, uuid, spawn).table)
  {
    if Tries(t) {
      OccupiedChange(t.slots, Found(t.slots, Vacant).value, NewSlot(id, tx, uuid, t.next));
    }
  }

  lemma ProcessorCounts(t: Table, name: string, use: Use, spawn: Spawn)
    requires Counted(t)
    ensures Counted(StartProcessor(t, name, use, spawn).table) && Counted(StopProcessor(t, name).table)
  {
    var n, i := IdentityOf(name, SpaceOf(use)), Found(t.slots, Vacant);
    if n.Some? && i.Some? {
      OccupiedChange(t.slots, i.value, Processor(n.value.space, n.value.name));
    }
    if AnyProcessor(t, name).Some? {
      DestroyCounts(t, AnyProcessor(t, name).value);
    }
  }

  /** With one process in use, a failed attachment makes the table look empty: the process is no longer found by its
      codec alone. */
  lemma MiscountHides(t: Table, id: string, tx: bool, other: string, uuid: string, i: nat)
    requires Counted(t) && t.active == 1 && i < |t.slots| && Matches(Any(id, tx), t.slots[i])
    requires Tries(t)
    ensures FindInstance(t, id, tx).Some? && FindInstance(Create(t, other, tx, uuid, Unattached).table, id, tx).None?
  {
    assert Matches(Any(id, tx), t.slots[i]);
  }

  lemma DestroyCounts(t: Table, i: nat)
    requires i < |t.slots|
    ensures Counted(t) ==> Counted(Destroy(t, i))
    ensures Behind(t) && t.active > 0 ==> Behind(Destroy(t, i))
  {
    if !t.slots[i].Free? {
      OccupiedChange(t.slots, i, Free);
      OccupiedSome(t.slots, i);
    }
  }

  lemma SameCount(t: Table, i: nat, s: Slot)
    requires i < |t.slots| && t.slots[i].Codec? && s.Codec?
    ensures var u := t.(slots := t.slots[i := s]); (Counted(t) <==> Counted(u)) && (Behind(t) <==> Behind(u))
  {
    OccupiedChange(t.slots, i, s);
  }

  lemma ReleaseCounts(t: Table, i: nat, now: nat, hang: nat)
    requires i < |t.slots| && t.slots[i].Codec?
    ensures Counted(t) ==> Counted(Release(t, i, now, hang)) && Counted(Idle(t, i, now, hang))
    ensures Behind(t) && t.active > 0 ==> Behind(Release(t, i, now, hang))
  {
    var s := t.slots[i];
    SameCount(t, i, s.(refs := 0, last := Pause, since := now, deadline := now + hang));
    if s.refs > 1 {
      SameCount(t, i, s.(refs := s.refs - 1));
    }
    DestroyCounts(t, i);
  }

  predicate FreshSlips(t: Table, id: string, tx: bool, uuid: Option<string>, first: Spawn, second: Spawn) {
    || Slips(t, first)
    || (uuid == Some("") && Create(t, id, tx, "", first).at.None? && Slips(Create(t, id, tx, "", first).table, second))
  }

  predicate StartSlips(t: Table, id: string, tx: bool, uuid: Option<string>, first: Spawn, second: Spawn) {
    id != "" && Known(t, id, tx, uuid).None? && FreshSlips(t, id, tx, uuid, first, second)
  }

  /** Whether the counter is right or, after a slip, too low. */
  ghost predicate Tallied(t: Table, slipped: bool) {
    if slipped then Behind(t) else Counted(t)
  }

  lemma FreshCounts(t: Table, id: string, tx: bool, uuid: Option<string>, first: Spawn, second: Spawn)
    requires Counted(t)
    ensures Tallied(Fresh(t, id, tx, uuid, first, second).table, FreshSlips(t, id, tx, uuid, first, second))
  {
    CreateCounts(t, id, tx, Given(uuid), first);
    if uuid == Some("") {
      var made := Create(t, id, tx, "", first);
      if Slips(t, first) {
        CreateBehind(made.table, id, tx, "", second);
      } else {
        CreateCounts(made.table, id, tx, "", second);
      }
    }
  }

  lemma StartCounts(t: Table, id: string, tx: bool, uuid: Option<string>, first: Spawn, second: Spawn)
    requires Counted(t)
    ensures Tallied(Start(t, id, tx, uuid, first, second).table, StartSlips(t, id, tx, uuid, first, second))
  {
    if id != "" {
      FreshCounts(t, id, tx, uuid, first, second);
      var m := Obtain(t, id, tx, uuid, first, second);
      if m.at.Some? {
        SameCount(m.table, m.at.value, Referenced(m.table.slots[m.at.value]));
      }
    }
  }

  lemma StopCounts(t: Table, id: string, tx: bool, uuid: Option<string>, now: nat, hang: nat)
    ensures Counted(t) ==> Counted(Stop(t, id, tx, uuid, now, hang)) && Counted(Kill(t, id, tx, uuid))
    ensures Behind(t) && t.active > 0 ==> Behind(Stop(t, id, tx, uuid, now, hang))
  {
    if ToStop(t, id, tx, uuid).Some? {
      ReleaseCounts(t, ToStop(t, id, tx, uuid).value, now, hang);
    }
    if FindFor(t, id, tx, uuid).Some? {
      DestroyCounts(t, FindFor(t, id, tx, uuid).value);
    }
  }

  predicate LocalSlips(t: Table, id: string, tx: bool, identity: string, first: Spawn, second: Spawn) {
    && |id| == 4 && identity != ""
    && var m := Owned(t, id, tx, identity, first);
       if m.at.None? then Slips(t, first) else StartSlips(m.table, id, tx, Some(identity), second, second)
  }

  lemma LocalCounts(t: Table, id: string, tx: bool, identity: string, first: Spawn, second: Spawn)
    requires Counted(t)
    ensures Tallied(StartLocal(t, id, tx, identity, first, second).table, LocalSlips(t, id, tx, identity, first, second))
  {
    if |id| == 4 && identity != "" {
      LocalIsOwned(t, id, tx, identity, first, second);
      CreateCounts(t, id, tx, identity, first);
      var m := if FindChannel(t, id, tx, identity).Some? then Made(t, FindChannel(t, id, tx, identity))
               else Create(t, id, tx, identity, first);
      if m.at.Some? {
        SameCount(m.table, m.at.value, m.table.slots[m.at.value].(local := true));
        StartCounts(Owned(t, id, tx, identity, first).table, id, tx, Some(identity), second, second);
      }
    }
  }

  lemma ReplayingCounts(t: Table, id: string, tx: bool, uuid: Option<string>)
    ensures var u := Replaying(t, id, tx, uuid);
            u.active == t.active && (Counted(t) <==> Counted(u)) && (Behind(t) <==> Behind(u))
  {
    var at := Known(t, id, tx, uuid);
    if at.Some? {
      SameCount(t, at.value, t.slots[at.value].(replay := true));
    }
  }

  lemma ChangeoverCounts(t: Table, c: Choice, now: nat, hang: nat)
    ensures Counted(t) ==> Counted(Changeover(t, c, now, hang))
    ensures Behind(t) && t.active > 0 ==> Behind(Changeover(t, c, now, hang))
  {
    ReplayingCounts(t, c.id, c.tx, c.uuid);
    if Leaves(c) {
      StopCounts(Replaying(t, c.id, c.tx, c.uuid), c.was.value, c.tx, c.uuid, now, hang);
    }
  }

  predicate SwitchSlips(t: Table, c: Choice, first: Spawn, second: Spawn) {
    |c.id| == 4 && StartSlips(t, c.id, c.tx, c.uuid, first, second)
  }

  lemma SwitchCounts(t: Table, c: Choice, now: nat, hang: nat, first: Spawn, second: Spawn)
    requires Counted(t)
    ensures Tallied(Switch(t, c, now, hang, first, second).table, SwitchSlips(t, c, first, second))
  {
    var s, slips := Start(t, c.id, c.tx, c.uuid, first, second), StartSlips(t, c.id, c.tx, c.uuid, first, second);
    StartCounts(t, c.id, c.tx, c.uuid, first, second);
    SwitchCases(t, c, now, hang, first, second);
    if s.chan.Some? {
      if slips {
        SlippedActive(t, c.id, c.tx, c.uuid, first, second);
      }
      ChangeoverTallies(s.table, c, now, hang, slips);
    }
  }

  /** A switch changes nothing, or is a start, or a start and what follows it. */
  lemma SwitchCases(t: Table, c: Choice, now: nat, hang: nat, first: Spawn, second: Spawn)
    ensures var s, r := Start(t, c.id, c.tx, c.uuid, first, second), Switch(t, c, now, hang, first, second).table;
            var slips := SwitchSlips(t, c, first, second);
            || (r == t && !slips)
            || (&& slips == StartSlips(t, c.id, c.tx, c.uuid, first, second)
                && (r == s.table || (s.chan.Some? && r == Changeover(s.table, c, now, hang))))
  {
  }

  lemma SlippedActive(t: Table, id: string, tx: bool, uuid: Option<string>, first: Spawn, second: Spawn)
    requires Start(t, id, tx, uuid, first, second).chan.Some? && StartSlips(t, id, tx, uuid, first, second)
    ensures Start(t, id, tx, uuid, first, second).table.active > 0
  {
    StartActive(t, id, tx, uuid, first, second);
  }

  lemma ChangeoverTallies(t: Table, c: Choice, now: nat, hang: nat, slipped: bool)
    requires Tallied(t, slipped) && (slipped ==> t.active > 0)
    ensures Tallied(Changeover(t, c, now, hang), slipped)
  {
    ChangeoverCounts(t, c, now, hang);
  }

  lemma SweepAtCounts(t: Table, i: nat, users: nat, now: nat, hang: nat)
    requires Counted(t) && i < |t.slots|
    ensures Counted(SweepAt(t, i, users, now, hang))
  {
    if t.slots[i].Codec? {
      SameCount(t, i, Demanded(t.slots[i], users));
      ReleaseCounts(t, i, now, hang);
      DestroyCounts(t, i);
    }
  }

  lemma {:induction false} SweepCounts(t: Table, i: nat, users: seq<nat>, now: nat, hang: nat)
    requires Counted(t) && |users| == |t.slots|
    ensures Counted(SweepFrom(t, i, users, now, hang))
    decreases |t.slots| - i
  {
    if i < |t.slots| {
      SweepAtCounts(t, i, users[i], now, hang);
      SweepCounts(SweepAt(t, i, users[i], now, hang), i + 1, users, now, hang);
    }
  }

  // ---------------------------------------------------------------- starting

  /** One slot now runs the codec for one user more; all others are as they were. */
  ghost predicate StartsAt(t: Table, u: Table, id: string, tx: bool, i: nat, chan: nat) {
    && i < |t.slots| == |u.slots| && u.slots == t.slots[i := u.slots[i]]
    && Matches(Any(id, tx), u.slots[i]) && u.slots[i].chan == chan
    && u.slots[i].last != Pause && u.slots[i].deadline == 0
    && (if t.slots[i].Free? then u.slots[i].refs == 1
        else Matches(Any(id, tx), t.slots[i]) && u.slots[i].refs == t.slots[i].refs + 1 && u.slots[i].chan == t.slots[i].chan)
  }

  lemma CreateShape(t: Table, id: string, tx: bool, uuid: string, spawn: Spawn)
    ensures var m := Create(t, id, tx, uuid, spawn);
            && m.table.next >= t.next
            && (m.at.None? ==> m.table.slots == t.slots)
            && (m.at.Some? ==> var i := m.at.value;
                               && i < |t.slots| && t.slots[i].Free? && m.table.next > t.next
                               && m.table.slots == t.slots[i := NewSlot(id, tx, uuid, t.next)])
  {
  }

  lemma FreshShape(t: Table, id: string, tx: bool, uuid: Option<string>, first: Spawn, second: Spawn)
    requires t.next > 0
    ensures var m := Fresh(t, id, tx, uuid, first, second);
            && m.table.next >= t.next
            && (m.at.None? ==> m.table.slots == t.slots)
            && (m.at.Some? ==> var i := m.at.value;
                               && i < |t.slots| && t.slots[i].Free? && i < |m.table.slots| && m.table.slots[i].Codec?
                               && m.table.slots[i].chan > 0
                               && m.table.slots == t.slots[i := NewSlot(id, tx, Given(uuid), m.table.slots[i].chan)])
  {
    if Given(uuid) != "" {
      CreateShape(t, id, tx, uuid.value, first);
    } else {
      CreateShape(t, id, tx, "", first);
      CreateShape(Create(t, id, tx, "", first).table, id, tx, "", second);
    }
  }

  lemma ReferencedUp(s: Slot)
    requires s.Codec? && Warm(s)
    ensures var r := Referenced(s);
            && r.Codec? && r.refs == s.refs + 1 && r.deadline == 0 && r.last != Pause
            && r.id == s.id && r.tx == s.tx && r.chan == s.chan && r.uuid == s.uuid
  {
  }

  /** A start that succeeds gives one user more a running, unpaused instance, and a failed one changes no slot. */
  lemma StartShape(t: Table, id: string, tx: bool, uuid: Option<string>, first: Spawn, second: Spawn)
    requires AllSane(t)
    ensures var r := Start(t, id, tx, uuid, first, second);
            && r.table.next >= t.next
            && (r.chan.None? ==> r.table.slots == t.slots)
            && (r.chan.Some? ==> var at := Obtain(t, id, tx, uuid, first, second).at;
                                 at.Some? && StartsAt(t, r.table, id, tx, at.value, r.chan.value))
  {
    if id != "" {
      FreshShape(t, id, tx, uuid, first, second);
      var m := Obtain(t, id, tx, uuid, first, second);
      if m.at.Some? {
        var s := m.table.slots[m.at.value];
        assert Sane(t.slots[m.at.value]);
        ReferencedUp(s);
        assert t.slots[m.at.value := s][m.at.value := Referenced(s)] == t.slots[m.at.value := Referenced(s)];
        assert Known(t, id, tx, uuid).Some? ==> t.slots == t.slots[m.at.value := s];
      }
    }
  }

  /** Which instance a start gives: the channel's own if there is one, and a new one only if there is none; without a
      channel one of the codec. */
  lemma StartFinds(t: Table, id: string, tx: bool, uuid: Option<string>, first: Spawn, second: Spawn, k: nat)
    requires Start(t, id, tx, uuid, first, second).chan.Some? && k < |t.slots|
    ensures var at := Obtain(t, id, tx, uuid, first, second).at;
            && at.Some? && at.value < |t.slots|
            && var s, o, named := t.slots[at.value], t.slots[k], uuid.Some? && uuid.value != "";
               && (!s.Free? ==> s.Codec? && s.id == id && s.tx == tx && (named ==> s.uuid == uuid.value))
               && (o.Codec? && o.id == id && o.tx == tx && (if named then o.uuid == uuid.value else t.active > 0) ==> !s.Free?)
  {
    if Known(t, id, tx, uuid).None? {
      FreshNumbers(t, id, tx, uuid, first, second);
      if uuid.Some? {
        assert !Matches(Bound(id, tx, uuid.value), t.slots[k]) || uuid.value == "";
      }
      assert !Matches(Any(id, tx), t.slots[k]) || (uuid.Some? && uuid.value != "") || t.active == 0;
    }
  }

  /** Whether a start for a channel gives an instance: exactly if there is one already, or one is counted for less than
      the table's size, a slot is free and the process spawns. */
  lemma StartSucceedsIff(t: Table, id: string, tx: bool, uuid: string, first: Spawn, second: Spawn)
    requires id != "" && uuid != ""
    ensures Start(t, id, tx, Some(uuid), first, second).chan.Some?
       <==> || (exists k :: 0 <= k < |t.slots| && t.slots[k].Codec? && t.slots[k].id == id && t.slots[k].tx == tx
                            && t.slots[k].uuid == uuid)
            || (t.active < |t.slots| && first == Spawned && exists k :: 0 <= k < |t.slots| && t.slots[k].Free?)
  {
    var own, free := Found(t.slots, Bound(id, tx, uuid)), Found(t.slots, Vacant);
    if own.None? {
      assert forall k :: 0 <= k < |t.slots| ==> !Matches(Bound(id, tx, uuid), t.slots[k]);
    }
    if free.None? {
      assert forall k :: 0 <= k < |t.slots| ==> !Matches(Vacant, t.slots[k]);
    }
  }

  /** What a user gets: a new instance in a free slot has the next channel number, which no other has, and its one
      user; a known instance has one user more and is awake. */
  lemma StartGives(t: Table, id: string, tx: bool, uuid: Option<string>, first: Spawn, second: Spawn)
    requires AllSane(t) && ChannelsDiffer(t) && Start(t, id, tx, uuid, first, second).chan.Some?
    ensures var r, at := Start(t, id, tx, uuid, first, second), Obtain(t, id, tx, uuid, first, second).at;
            && at.Some? && at.value < |t.slots| == |r.table.slots|
            && var s, n := t.slots[at.value], r.chan.value;
               if s.Free? then
                 var name := if uuid.None? then "" else if |uuid.value| < 64 then uuid.value else uuid.value[..63];
                 && n == t.next + (if uuid == Some("") && first != Spawned then 1 else 0) && r.table.next == n + 1
                 && (forall k :: 0 <= k < |t.slots| && t.slots[k].Codec? ==> t.slots[k].chan != n)
                 && r.table.slots == t.slots[at.value := Codec(id, tx, name, false, 1, 0, 0, n, Nothing, false, 0)]
               else
                 var warm := s.tx && s.refs == 0 && s.deadline > 0;
                 && s.Codec? && n == s.chan && r.table.next == t.next
                 && r.table.slots == t.slots[at.value := Codec(s.id, s.tx, s.uuid, s.local, s.refs + 1, 0, 0, s.chan,
                                               if warm then Resume else s.last, warm || s.replay, s.cached)]
  {
    if Known(t, id, tx, uuid).None? {
      FreshNumbers(t, id, tx, uuid, first, second);
      var m := Obtain(t, id, tx, uuid, first, second);
      PutTwice(t.slots, m.at.value, m.table.slots[m.at.value], Referenced(m.table.slots[m.at.value]));
    }
  }

  lemma PutTwice<T>(s: seq<T>, i: nat, x: T, y: T)
    requires i < |s|
    ensures s[i := x][i := y] == s[i := y]
  {
  }

  lemma FreshNumbers(t: Table, id: string, tx: bool, uuid: Option<string>, first: Spawn, second: Spawn)
    requires Fresh(t, id, tx, uuid, first, second).at.Some?
    ensures var m := Fresh(t, id, tx, uuid, first, second);
            var n := t.next + if uuid == Some("") && first != Spawned then 1 else 0;
            && m.at.value < |t.slots| && t.slots[m.at.value].Free? && m.table.next == n + 1
            && m.table.slots == t.slots[m.at.value := NewSlot(id, tx, Given(uuid), n)]
  {
  }

  // ---------------------------------------------------------------- channel numbers

  /** Every codec has a number that was given out, and no two have the same. */
  ghost predicate ChannelsDiffer(t: Table) {
    && (forall i :: 0 <= i < |t.slots| && t.slots[i].Codec? ==> t.slots[i].chan < t.next)
    && (forall i, j :: 0 <= i < j < |t.slots| && t.slots[i].Codec? && t.slots[j].Codec? ==> t.slots[i].chan != t.slots[j].chan)
  }

  /** Codecs only go, or keep their numbers. */
  ghost predicate NoNewChannels(t: Table, u: Table) {
    && |u.slots| == |t.slots| && u.next >= t.next
    && forall i :: 0 <= i < |t.slots| && u.slots[i].Codec? ==> t.slots[i].Codec? && u.slots[i].chan == t.slots[i].chan
  }

  lemma FewerDiffer(t: Table, u: Table)
    requires ChannelsDiffer(t) && NoNewChannels(t, u)
    ensures ChannelsDiffer(u)
  {
  }

  lemma CreateDiffers(t: Table, id: string, tx: bool, uuid: string, spawn: Spawn)
    requires ChannelsDiffer(t)
    ensures ChannelsDiffer(Create(t, id, tx, uuid, spawn).table)
  {
  }

  lemma FreshDiffers(t: Table, id: string, tx: bool, uuid: Option<string>, first: Spawn, second: Spawn)
    requires ChannelsDiffer(t)
    ensures ChannelsDiffer(Fresh(t, id, tx, uuid, first, second).table)
  {
    CreateDiffers(t, id, tx, Given(uuid), first);
    CreateDiffers(Create(t, id, tx, "", first).table, id, tx, "", second);
  }

  lemma PutFewer(t: Table, i: nat, s: Slot)
    requires i < |t.slots| && t.slots[i].Codec? && s.Codec? && s.chan == t.slots[i].chan
    ensures NoNewChannels(t, t.(slots := t.slots[i := s]))
  {
  }

  lemma StartDiffers(t: Table, id: string, tx: bool, uuid: Option<string>, first: Spawn, second: Spawn)
    requires ChannelsDiffer(t)
    ensures ChannelsDiffer(Start(t, id, tx, uuid, first, second).table)
  {
    if id != "" {
      FreshDiffers(t, id, tx, uuid, first, second);
      var m := Obtain(t, id, tx, uuid, first, second);
      if m.at.Some? {
        var s := Referenced(m.table.slots[m.at.value]);
        PutFewer(m.table, m.at.value, s);
        FewerDiffer(m.table, m.table.(slots := m.table.slots[m.at.value := s]));
      }
    }
  }

  lemma StopFewer(t: Table, id: string, tx: bool, uuid: Option<string>, now: nat, hang: nat)
    ensures NoNewChannels(t, Stop(t, id, tx, uuid, now, hang)) && NoNewChannels(t, Kill(t, id, tx, uuid))
  {
    if id != "" {
      StopShape(t, id, tx, uuid, now, hang);
    }
  }

  lemma ReplayingFewer(t: Table, id: string, tx: bool, uuid: Option<string>)
    ensures NoNewChannels(t, Replaying(t, id, tx, uuid))
  {
    ReplayingShape(t, id, tx, uuid);
  }

  lemma ChangeoverDiffers(t: Table, c: Choice, now: nat, hang: nat)
    requires ChannelsDiffer(t)
    ensures ChannelsDiffer(Changeover(t, c, now, hang))
  {
    var u := Replaying(t, c.id, c.tx, c.uuid);
    ReplayingFewer(t, c.id, c.tx, c.uuid);
    FewerDiffer(t, u);
    if Leaves(c) {
      StopFewer(u, c.was.value, c.tx, c.uuid, now, hang);
      FewerDiffer(u, Stop(u, c.was.value, c.tx, c.uuid, now, hang));
    }
  }

  lemma SwitchDiffers(t: Table, c: Choice, now: nat, hang: nat, first: Spawn, second: Spawn)
    requires ChannelsDiffer(t)
    ensures ChannelsDiffer(Switch(t, c, now, hang, first, second).table)
  {
    StartDiffers(t, c.id, c.tx, c.uuid, first, second);
    ChangeoverDiffers(Start(t, c.id, c.tx, c.uuid, first, second).table, c, now, hang);
  }

  lemma LocalDiffers(t: Table, id: string, tx: bool, identity: string, first: Spawn, second: Spawn)
    requires ChannelsDiffer(t)
    ensures ChannelsDiffer(StartLocal(t, id, tx, identity, first, second).table)
  {
    if |id| == 4 && identity != "" {
      LocalIsOwned(t, id, tx, identity, first, second);
      CreateDiffers(t, id, tx, identity, first);
      var m := if FindChannel(t, id, tx, identity).Some? then Made(t, FindChannel(t, id, tx, identity))
               else Create(t, id, tx, identity, first);
      var owned := Owned(t, id, tx, identity, first).table;
      FewerDiffer(m.table, owned);
      StartDiffers(owned, id, tx, Some(identity), second, second);
    }
  }

  lemma PutSane(t: Table, u: Table, i: nat, s: Slot)
    requires AllSane(t) && i < |t.slots| && Sane(s) && u.slots == t.slots[i := s] && u.next >= t.next
    ensures AllSane(u)
  {
  }

  lemma PutHeld(t: Table, u: Table, i: nat, s: Slot)
    requires AllHeld(t) && i < |t.slots| && Held(s) && u.slots == t.slots[i := s]
    ensures AllHeld(u)
  {
  }

  lemma StartSane(t: Table, id: string, tx: bool, uuid: Option<string>, first: Spawn, second: Spawn)
    requires AllSane(t)
    ensures AllSane(Start(t, id, tx, uuid, first, second).table)
    ensures AllHeld(t) ==> AllHeld(Start(t, id, tx, uuid, first, second).table)
  {
    StartShape(t, id, tx, uuid, first, second);
    var r := Start(t, id, tx, uuid, first, second);
    if r.chan.Some? {
      var i := Obtain(t, id, tx, uuid, first, second).at.value;
      StartedSlot(t, id, tx, uuid, first, second);
      PutSane(t, r.table, i, r.table.slots[i]);
      if AllHeld(t) {
        PutHeld(t, r.table, i, r.table.slots[i]);
      }
    }
  }

  lemma StartedSlot(t: Table, id: string, tx: bool, uuid: Option<string>, first: Spawn, second: Spawn)
    requires AllSane(t) && Start(t, id, tx, uuid, first, second).chan.Some?
    ensures var at := Obtain(t, id, tx, uuid, first, second).at;
            && at.Some? && at.value < |Start(t, id, tx, uuid, first, second).table.slots|
            && Sane(Start(t, id, tx, uuid, first, second).table.slots[at.value])
  {
    FreshShape(t, id, tx, uuid, first, second);
    var m := Obtain(t, id, tx, uuid, first, second);
    var s := m.table.slots[m.at.value];
    assert Sane(t.slots[m.at.value]);
    ReferencedUp(s);
  }

  // ---------------------------------------------------------------- stopping

  /** What becomes of a slot when one user leaves. */
  function Left(s: Slot, now: nat, hang: nat): Slot
    requires s.Codec?
  {
    if s.refs > 1 then s.(refs := s.refs - 1)
    else if s.tx && hang > 0 then s.(refs := 0, last := Pause, since := now, deadline := now + hang)
    else Free
  }

  lemma LeftSane(s: Slot, now: nat, hang: nat)
    requires s.Codec? && Sane(s)
    ensures Sane(Left(s, now, hang)) && Held(Left(s, now, hang))
  {
  }

  /** One user less: shared instances go on, the last one leaves an encoder warm and paused for the hang time and
      ends a decoder at once. */
  lemma ReleaseShape(t: Table, i: nat, now: nat, hang: nat)
    requires i < |t.slots| && t.slots[i].Codec?
    ensures Release(t, i, now, hang).slots == t.slots[i := Left(t.slots[i], now, hang)]
    ensures Release(t, i, now, hang).next == t.next
  {
  }

  lemma StopShape(t: Table, id: string, tx: bool, uuid: Option<string>, now: nat, hang: nat)
    requires id != ""
    ensures var j := ToStop(t, id, tx, uuid);
            && Stop(t, id, tx, uuid, now, hang).next == t.next
            && Stop(t, id, tx, uuid, now, hang).slots
            == if j.Some? then t.slots[j.value := Left(t.slots[j.value], now, hang)] else t.slots
  {
    if ToStop(t, id, tx, uuid).Some? {
      ReleaseShape(t, ToStop(t, id, tx, uuid).value, now, hang);
    }
  }

  /** One instance serves a channel rather than another: its own, or one without channel if the other is not its own. */
  predicate Serves(s: Slot, other: Slot, id: string, tx: bool, uuid: string) {
    && s.Codec? && s.id == id && s.tx == tx && s.uuid in {uuid, ""}
    && (other.Codec? && other.id == id && other.tx == tx && other.uuid == uuid ==> s.uuid == uuid)
  }

  /** Which instance a stop finds for a channel: its own, and one that is bound to none only if it has none of its own;
      and none only if there is neither. */
  lemma StopFinds(t: Table, id: string, tx: bool, uuid: string, k: nat)
    requires uuid != "" && k < |t.slots|
    ensures var at, o := ToStop(t, id, tx, Some(uuid)), t.slots[k];
            if at.None? then o.Codec? && o.id == id && o.tx == tx ==> o.uuid !in {uuid, ""}
            else at.value < |t.slots| && Serves(t.slots[at.value], o, id, tx, uuid)
  {
    var own := FindFor(t, id, tx, Some(uuid));
    if own.None? {
      assert !Matches(Bound(id, tx, uuid), t.slots[k]);
    }
    if ToStop(t, id, tx, Some(uuid)).None? {
      assert !Matches(Unbound(id, tx), t.slots[k]);
    }
  }

  /** A kill frees the instance that bears the channel's name, whoever uses it. */
  lemma KillGives(t: Table, id: string, tx: bool, uuid: string, k: nat)
    requires id != "" && uuid != "" && k < |t.slots|
    ensures var r, o := Kill(t, id, tx, Some(uuid)), t.slots[k];
            && |r.slots| == |t.slots|
            && (o.Codec? && o.id == id && o.tx == tx && o.uuid == uuid ==>
                  exists i :: 0 <= i <= k && t.slots[i].Codec? && t.slots[i].id == id && t.slots[i].tx == tx
                              && t.slots[i].uuid == uuid && r.slots == t.slots[i := Free])
            && (r.slots[k] != o ==> o.Codec? && o.id == id && o.tx == tx && o.uuid == uuid)
  {
    var at := FindFor(t, id, tx, Some(uuid));
    assert Matches(Bound(id, tx, uuid), t.slots[k]) ==> at.Some? && at.value <= k;
    if at.Some? {
      assert Matches(Bound(id, tx, uuid), t.slots[at.value]);
    }
  }

  /** What a stop leaves of the instance it finds: one reference less; or with the last one gone an encoder that is
      paused and kept for the hang time, or nothing. */
  lemma StopGives(t: Table, id: string, tx: bool, uuid: Option<string>, now: nat, hang: nat)
    requires id != "" && ToStop(t, id, tx, uuid).Some?
    ensures var i, r := ToStop(t, id, tx, uuid).value, Stop(t, id, tx, uuid, now, hang);
            && i < |t.slots| == |r.slots| && t.slots[i].Codec? && r.next == t.next
            && (forall k :: 0 <= k < |t.slots| && k != i ==> r.slots[k] == t.slots[k])
            && var s := t.slots[i];
               if s.refs > 1 then
                 r.slots[i] == Codec(s.id, s.tx, s.uuid, s.local, s.refs - 1, s.deadline, s.since, s.chan, s.last, s.replay, s.cached)
               else if s.tx && hang > 0 then
                 r.slots[i] == Codec(s.id, true, s.uuid, s.local, 0, now + hang, now, s.chan, Pause, s.replay, s.cached)
               else r.slots[i].Free?
  {
  }

  lemma StopSane(t: Table, id: string, tx: bool, uuid: Option<string>, now: nat, hang: nat)
    requires AllSane(t)
    ensures AllSane(Stop(t, id, tx, uuid, now, hang)) && AllSane(Kill(t, id, tx, uuid))
    ensures AllHeld(t) ==> AllHeld(Stop(t, id, tx, uuid, now, hang)) && AllHeld(Kill(t, id, tx, uuid))
  {
    if id != "" {
      StopShape(t, id, tx, uuid, now, hang);
      var j := ToStop(t, id, tx, uuid);
      if j.Some? {
        assert Sane(t.slots[j.value]);
        LeftSane(t.slots[j.value], now, hang);
      }
    }
  }

  // ---------------------------------------------------------------- make before break

  lemma ReplayingShape(t: Table, id: string, tx: bool, uuid: Option<string>)
    ensures var u := Replaying(t, id, tx, uuid);
            && |u.slots| == |t.slots| && u.next == t.next
            && forall k :: 0 <= k < |t.slots| ==>
                 u.slots[k] == t.slots[k]
                 || (Matches(Any(id, tx), t.slots[k]) && u.slots[k] == t.slots[k].(replay := true))
  {
  }

  /** The instance that a user of a codec has: the channel's own, else one that is bound to none; without a channel
      the first of that codec. */
  function Serving(slots: seq<Slot>, id: string, tx: bool, uuid: Option<string>): (r: Option<nat>)
    ensures r.Some? ==> r.value < |slots| && Matches(Any(id, tx), slots[r.value])
  {
    if Given(uuid) == "" then Found(slots, Any(id, tx))
    else if Found(slots, Bound(id, tx, uuid.value)).Some? then Found(slots, Bound(id, tx, uuid.value))
    else Found(slots, Unbound(id, tx))
  }

  /** While the counter is right, or not zero, or for a channel, a stop releases the instance that serves its user. */
  lemma StopsServing(t: Table, id: string, tx: bool, uuid: Option<string>)
    requires Counted(t) || t.active > 0 || Given(uuid) != ""
    ensures ToStop(t, id, tx, uuid) == Serving(t.slots, id, tx, uuid)
  {
    var found := Found(t.slots, Any(id, tx));
    if Counted(t) && t.active == 0 && found.Some? {
      OccupiedSome(t.slots, found.value);
    }
  }

  lemma ServingAlike(a: seq<Slot>, b: seq<Slot>, id: string, tx: bool, uuid: Option<string>)
    requires Alike(a, b, Any(id, tx)) && Alike(a, b, Unbound(id, tx)) && Alike(a, b, Bound(id, tx, Given(uuid)))
    ensures Serving(a, id, tx, uuid) == Serving(b, id, tx, uuid)
  {
    FirstAlike(a, b, Any(id, tx));
    FirstAlike(a, b, Unbound(id, tx));
    FirstAlike(a, b, Bound(id, tx, Given(uuid)));
  }

  /** Between different codecs: the new instance runs for a user more before the old one is touched, and then the
      instance that served the user before loses exactly one reference; a failed switch changes no slot. */
  lemma MakeBeforeBreak(t: Table, c: Choice, now: nat, hang: nat, first: Spawn, second: Spawn)
    requires AllSane(t) && |c.id| == 4 && Leaves(c)
    ensures var s := Start(t, c.id, c.tx, c.uuid, first, second);
            var r := Switch(t, c, now, hang, first, second);
            && r.chan == s.chan
            && (r.chan.None? ==> r.table.slots == t.slots)
            && (r.chan.Some? ==>
                  var at := Obtain(t, c.id, c.tx, c.uuid, first, second).at;
                  && at.Some? && StartsAt(t, s.table, c.id, c.tx, at.value, r.chan.value)
                  && Swapped(t, s.table, r.table, c, at.value, now, hang))
  {
    StartShape(t, c.id, c.tx, c.uuid, first, second);
    var s := Start(t, c.id, c.tx, c.uuid, first, second);
    if s.chan.Some? {
      StartActive(t, c.id, c.tx, c.uuid, first, second);
      SwappedSlots(t, s.table, c, Obtain(t, c.id, c.tx, c.uuid, first, second).at.value, s.chan.value, now, hang);
    }
  }

  /** From the table before the switch to the one after it: the new instance runs, the instance that served the user
      before has one user less, and nothing else changes. */
  ghost predicate Swapped(t: Table, both: Table, u: Table, c: Choice, i: nat, now: nat, hang: nat)
    requires Leaves(c)
  {
    var j := Serving(t.slots, c.was.value, c.tx, c.uuid);
    && |u.slots| == |both.slots| == |t.slots| && i < |t.slots|
    && (u.slots[i] == both.slots[i] || (both.slots[i].Codec? && u.slots[i] == both.slots[i].(replay := true)))
    && (j.Some? ==> && j.value < |t.slots| && j.value != i && both.slots[j.value] == t.slots[j.value]
                    && u.slots[j.value] == Left(t.slots[j.value], now, hang))
    && (forall k :: 0 <= k < |t.slots| && k != i && j != Some(k) ==>
          u.slots[k] == t.slots[k] || (t.slots[k].Codec? && u.slots[k] == t.slots[k].(replay := true)))
  }

  lemma StartActive(t: Table, id: string, tx: bool, uuid: Option<string>, first: Spawn, second: Spawn)
    requires Start(t, id, tx, uuid, first, second).chan.Some?
    ensures Start(t, id, tx, uuid, first, second).table.active > 0 || Given(uuid) != ""
  {
  }

  /** The new instance and the repeated headers are no business of another codec's users. */
  lemma StillServing(t: Table, both: Table, c: Choice, i: nat, chan: nat)
    requires Leaves(c) && StartsAt(t, both, c.id, c.tx, i, chan) && (both.active > 0 || Given(c.uuid) != "")
    ensures ToStop(Replaying(both, c.id, c.tx, c.uuid), c.was.value, c.tx, c.uuid) == Serving(t.slots, c.was.value, c.tx, c.uuid)
  {
    var v, was := Replaying(both, c.id, c.tx, c.uuid), c.was.value;
    ReplayingShape(both, c.id, c.tx, c.uuid);
    StopsServing(v, was, c.tx, c.uuid);
    OthersAlike(t.slots, both.slots, v.slots, c.id, c.tx, i, Any(was, c.tx));
    OthersAlike(t.slots, both.slots, v.slots, c.id, c.tx, i, Unbound(was, c.tx));
    OthersAlike(t.slots, both.slots, v.slots, c.id, c.tx, i, Bound(was, c.tx, Given(c.uuid)));
    ServingAlike(t.slots, v.slots, was, c.tx, c.uuid);
  }

  lemma OthersAlike(t: seq<Slot>, both: seq<Slot>, v: seq<Slot>, id: string, tx: bool, i: nat, k: Key)
    requires i < |t| == |both| == |v| && both == t[i := both[i]] && Matches(Any(id, tx), both[i])
    requires t[i].Free? || Matches(Any(id, tx), t[i])
    requires forall n :: 0 <= n < |t| ==> v[n] == both[n] || (Matches(Any(id, tx), both[n]) && v[n] == both[n].(replay := true))
    requires (k.Bound? || k.Any? || k.Unbound?) && k.id != id
    ensures Alike(t, v, k)
  {
  }

  lemma SwappedSlots(t: Table, both: Table, c: Choice, i: nat, chan: nat, now: nat, hang: nat)
    requires Leaves(c) && |c.id| == 4 && StartsAt(t, both, c.id, c.tx, i, chan)
    requires both.active > 0 || Given(c.uuid) != ""
    ensures Swapped(t, both, Stop(Replaying(both, c.id, c.tx, c.uuid), c.was.value, c.tx, c.uuid, now, hang), c, i, now, hang)
  {
    var v, j := Replaying(both, c.id, c.tx, c.uuid), Serving(t.slots, c.was.value, c.tx, c.uuid);
    StillServing(t, both, c, i, chan);
    ReplayingShape(both, c.id, c.tx, c.uuid);
    StopShape(v, c.was.value, c.tx, c.uuid, now, hang);
    SwapsSlots(t.slots, both.slots, v.slots, c, i, j, now, hang);
  }

  /** Slot by slot: the new instance at i and others of its codec may be marked, and slot j loses a user. */
  lemma SwapsSlots(t: seq<Slot>, both: seq<Slot>, v: seq<Slot>, c: Choice, i: nat, j: Option<nat>, now: nat, hang: nat)
    requires Leaves(c) && i < |t| == |both| == |v| && both == t[i := both[i]] && Matches(Any(c.id, c.tx), both[i])
    requires forall k :: 0 <= k < |t| ==>
               v[k] == both[k] || (Matches(Any(c.id, c.tx), both[k]) && v[k] == both[k].(replay := true))
    requires j.Some? ==> j.value < |t| && Matches(Any(c.was.value, c.tx), t[j.value])
    requires j.Some? ==> j.value != i && v[j.value] == t[j.value]
    ensures var u := if j.Some? then v[j.value := Left(v[j.value], now, hang)] else v;
            && (u[i] == both[i] || (both[i].Codec? && u[i] == both[i].(replay := true)))
            && (j.Some? ==> u[j.value] == Left(t[j.value], now, hang))
            && forall k :: 0 <= k < |t| && k != i && j != Some(k) ==>
                 u[k] == t[k] || (t[k].Codec? && u[k] == t[k].(replay := true))
  {
  }

  /** A switch to the codec that the channel has already adds no reference while it is in use. */
  lemma SwitchToSame(t: Table, c: Choice, now: nat, hang: nat, first: Spawn, second: Spawn)
    requires |c.id| == 4 && c.was == Some(c.id) && Known(t, c.id, c.tx, c.uuid).Some?
    ensures var s, r := t.slots[Known(t, c.id, c.tx, c.uuid).value], Switch(t, c, now, hang, first, second);
            && r.chan == Some(s.chan)
            && (s.refs > 0 ==> r.table == t)
            && (s.refs == 0 ==> r == Start(t, c.id, c.tx, c.uuid, first, second))
  {
  }

  /** A switch back to a codec that still runs makes it repeat its cached stream headers. */
  lemma HeadersRepeated(t: Table, c: Choice, now: nat, hang: nat, first: Spawn, second: Spawn)
    requires AllSane(t) && |c.id| == 4 && !Stays(c) && Known(t, c.id, c.tx, c.uuid).Some?
    requires t.slots[Known(t, c.id, c.tx, c.uuid).value].cached > 0
    ensures var k, r := Known(t, c.id, c.tx, c.uuid).value, Switch(t, c, now, hang, first, second).table;
            k < |r.slots| && r.slots[k].Codec? && r.slots[k].replay
  {
    StillKnown(t, c, first, second);
    ChangeoverRepeats(Start(t, c.id, c.tx, c.uuid, first, second).table, c, now, hang);
  }

  lemma StillKnown(t: Table, c: Choice, first: Spawn, second: Spawn)
    requires AllSane(t) && c.id != "" && Known(t, c.id, c.tx, c.uuid).Some?
    ensures var k, both := Known(t, c.id, c.tx, c.uuid), Start(t, c.id, c.tx, c.uuid, first, second);
            && both.chan.Some? && Known(both.table, c.id, c.tx, c.uuid) == k && k.value < |both.table.slots|
            && both.table.slots[k.value] == Referenced(t.slots[k.value])
  {
    var k := Known(t, c.id, c.tx, c.uuid).value;
    SamePlace(t.slots, k, Referenced(t.slots[k]), Any(c.id, c.tx));
    SamePlace(t.slots, k, Referenced(t.slots[k]), Bound(c.id, c.tx, Given(c.uuid)));
  }

  lemma ChangeoverRepeats(t: Table, c: Choice, now: nat, hang: nat)
    requires |c.id| == 4 && Known(t, c.id, c.tx, c.uuid).Some? && t.slots[Known(t, c.id, c.tx, c.uuid).value].cached > 0
    ensures var k, r := Known(t, c.id, c.tx, c.uuid).value, Changeover(t, c, now, hang);
            k < |r.slots| && r.slots[k].Codec? && r.slots[k].replay
  {
    if Leaves(c) {
      StopShape(Replaying(t, c.id, c.tx, c.uuid), c.was.value, c.tx, c.uuid, now, hang);
    }
  }

  lemma ChangeoverSane(t: Table, c: Choice, now: nat, hang: nat)
    requires AllSane(t)
    ensures AllSane(Changeover(t, c, now, hang)) && (AllHeld(t) ==> AllHeld(Changeover(t, c, now, hang)))
  {
    var u := Replaying(t, c.id, c.tx, c.uuid);
    ReplayingShape(t, c.id, c.tx, c.uuid);
    if Leaves(c) {
      StopSane(u, c.was.value, c.tx, c.uuid, now, hang);
    }
  }

  lemma SwitchSane(t: Table, c: Choice, now: nat, hang: nat, first: Spawn, second: Spawn)
    requires AllSane(t)
    ensures AllSane(Switch(t, c, now, hang, first, second).table)
    ensures AllHeld(t) ==> AllHeld(Switch(t, c, now, hang, first, second).table)
  {
    StartSane(t, c.id, c.tx, c.uuid, first, second);
    ChangeoverSane(Start(t, c.id, c.tx, c.uuid, first, second).table, c, now, hang);
  }

  // ---------------------------------------------------------------- a decoder's life

  /** A slot that is as it was, but for the note of when it fell idle. */
  predicate AsBefore(was: Slot, s: Slot) {
    s == was || (was.Codec? && s.Codec? && s == was.(since := s.since))
  }

  ghost predicate Restored(t: Table, u: Table) {
    |u.slots| == |t.slots| && forall k :: 0 <= k < |t.slots| ==> AsBefore(t.slots[k], u.slots[k])
  }

  /** A stop gives back what a start has taken, a shared decoder one reference and a new one its slot, exactly if the
      channel's name fits the slot: a process for a longer one is not found again by its own channel. */
  lemma DecoderIsGivenBack(t: Table, id: string, uuid: string, first: Spawn, second: Spawn, now: nat, hang: nat)
    requires AllSane(t) && AllHeld(t) && uuid != "" && Start(t, id, false, Some(uuid), first, second).chan.Some?
    ensures Restored(t, Stop(Start(t, id, false, Some(uuid), first, second).table, id, false, Some(uuid), now, hang))
       <==> |uuid| < 64
  {
    if |uuid| >= UUID_SIZE {
      LongIsKept(t, id, uuid, first, second, now, hang);
    } else if Known(t, id, false, Some(uuid)).Some? {
      SharedIsGivenBack(t, id, uuid, first, second, now, hang);
    } else {
      NewIsGivenBack(t, id, uuid, first, second, now, hang);
    }
  }

  lemma SharedIsGivenBack(t: Table, id: string, uuid: string, first: Spawn, second: Spawn, now: nat, hang: nat)
    requires AllSane(t) && AllHeld(t) && id != "" && uuid != "" && Known(t, id, false, Some(uuid)).Some?
    ensures Restored(t, Stop(Start(t, id, false, Some(uuid), first, second).table, id, false, Some(uuid), now, hang))
  {
    var k, u := Known(t, id, false, Some(uuid)).value, Start(t, id, false, Some(uuid), first, second).table;
    assert Sane(t.slots[k]) && Held(t.slots[k]);
    SamePlace(t.slots, k, u.slots[k], Bound(id, false, uuid));
    StopShape(u, id, false, Some(uuid), now, hang);
    assert Left(u.slots[k], now, hang) == t.slots[k].(since := 0);
  }

  lemma NewIsGivenBack(t: Table, id: string, uuid: string, first: Spawn, second: Spawn, now: nat, hang: nat)
    requires AllSane(t) && uuid != "" && |uuid| < UUID_SIZE && Known(t, id, false, Some(uuid)).None?
    requires Start(t, id, false, Some(uuid), first, second).chan.Some?
    ensures Restored(t, Stop(Start(t, id, false, Some(uuid), first, second).table, id, false, Some(uuid), now, hang))
  {
    var u, i := Start(t, id, false, Some(uuid), first, second).table, Found(t.slots, Vacant).value;
    assert u.slots == t.slots[i := Referenced(NewSlot(id, false, uuid, t.next))];
    OwnIsFound(t, u, id, false, uuid, i);
    StopShape(u, id, false, Some(uuid), now, hang);
  }

  lemma LongIsKept(t: Table, id: string, uuid: string, first: Spawn, second: Spawn, now: nat, hang: nat)
    requires AllSane(t) && |uuid| >= UUID_SIZE && Start(t, id, false, Some(uuid), first, second).chan.Some?
    ensures !Restored(t, Stop(Start(t, id, false, Some(uuid), first, second).table, id, false, Some(uuid), now, hang))
  {
    var u := Start(t, id, false, Some(uuid), first, second).table;
    LongIsUnknown(t, id, false, uuid);
    var i := Found(t.slots, Vacant).value;
    assert u.slots == t.slots[i := Referenced(NewSlot(id, false, uuid, t.next))];
    StartSane(t, id, false, Some(uuid), first, second);
    LongIsUnknown(u, id, false, uuid);
    StopShape(u, id, false, Some(uuid), now, hang);
    var r := Stop(u, id, false, Some(uuid), now, hang);
    assert r.slots[i].Codec? && !AsBefore(t.slots[i], r.slots[i]);
  }

  /** A name of 64 characters: the decoder runs on after its only user has stopped it. */
  lemma LongNameStays(name: string, now: nat, hang: nat)
    requires |name| == 64
    ensures var s := Start(Empty(1), "mu08", false, Some(name), Spawned, Spawned);
            s.chan.Some? && s.table.slots[0].Codec? && Stop(s.table, "mu08", false, Some(name), now, hang) == s.table
  {
    var u := Start(Empty(1), "mu08", false, Some(name), Spawned, Spawned).table;
    assert Matches(Vacant, Empty(1).slots[0]);
    LongIsUnknown(Empty(1), "mu08", false, name);
    StartSane(Empty(1), "mu08", false, Some(name), Spawned, Spawned);
    LongIsUnknown(u, "mu08", false, name);
    assert u.slots[0].uuid == name[..UUID_SIZE - 1];
  }

  // ---------------------------------------------------------------- a client's own codec

  /** The slot that a client's codec is given before it is started. */
  function Owned(t: Table, id: string, tx: bool, identity: string, first: Spawn): (m: Made)
    ensures Usable(m, id, tx)
  {
    var known := FindChannel(t, id, tx, identity);
    var m := if known.Some? then Made(t, known) else Create(t, id, tx, identity, first);
    if m.at.None? then m
    else Made(m.table.(slots := m.table.slots[m.at.value := m.table.slots[m.at.value].(local := true)]), m.at)
  }

  lemma OwnedShape(t: Table, id: string, tx: bool, identity: string, first: Spawn)
    requires AllSane(t)
    ensures var m := Owned(t, id, tx, identity, first);
            && AllSane(m.table)
            && (m.at.None? ==> m.table.slots == t.slots)
            && (m.at.Some? ==> var i := m.at.value;
                               && i < |t.slots| && i < |m.table.slots| && m.table.slots[i].Codec?
                               && m.table.slots == t.slots[i := m.table.slots[i]] && m.table.slots[i].uuid == Clip(identity)
                               && (t.slots[i].Free? ==> !Held(m.table.slots[i])))
  {
    CreateShape(t, id, tx, identity, first);
    var known := FindChannel(t, id, tx, identity);
    var m := if known.Some? then Made(t, known) else Create(t, id, tx, identity, first);
    if m.at.Some? {
      var i := m.at.value;
      var s := m.table.slots[i].(local := true);
      assert Sane(t.slots[i]);
      assert m.table.slots[i := s] == t.slots[i := s];
      PutSane(t, m.table.(slots := m.table.slots[i := s]), i, s);
    }
  }

  lemma LocalIsOwned(t: Table, id: string, tx: bool, identity: string, first: Spawn, second: Spawn)
    requires |id| == 4 && identity != ""
    ensures var m := Owned(t, id, tx, identity, first);
            StartLocal(t, id, tx, identity, first, second)
            == if m.at.None? then Started(m.table, None) else Start(m.table, id, tx, Some(identity), second, second)
  {
  }

  lemma LocalSane(t: Table, id: string, tx: bool, identity: string, first: Spawn, second: Spawn)
    requires AllSane(t)
    ensures AllSane(StartLocal(t, id, tx, identity, first, second).table)
  {
    if |id| == 4 && identity != "" {
      LocalIsOwned(t, id, tx, identity, first, second);
      OwnedShape(t, id, tx, identity, first);
      StartSane(Owned(t, id, tx, identity, first).table, id, tx, Some(identity), second, second);
    }
  }

  /** A new local codec is held by its user exactly if its identity fits the slot: a longer one is not found again
      under its full name, a second process is started for it, and the first one stays without user or deadline. */
  lemma LocalHeldIff(t: Table, id: string, tx: bool, identity: string, first: Spawn, second: Spawn)
    requires AllSane(t) && AllHeld(t) && |id| == 4 && identity != "" && FindChannel(t, id, tx, identity).None?
    requires Owned(t, id, tx, identity, first).at.Some?
    ensures AllHeld(StartLocal(t, id, tx, identity, first, second).table) <==> |identity| < 64
  {
    var m := Owned(t, id, tx, identity, first);
    OwnedShape(t, id, tx, identity, first);
    CreateShape(t, id, tx, identity, first);
    LocalIsOwned(t, id, tx, identity, first, second);
    StartShape(m.table, id, tx, Some(identity), second, second);
    if |identity| < UUID_SIZE {
      OwnIsFound(t, m.table, id, tx, identity, m.at.value);
      ShortIsHeld(t, m.table, id, tx, identity, m.at.value, second);
    } else {
      LongIsOrphaned(m.table, id, tx, identity, m.at.value, second);
    }
  }

  /** A client's own codec under a name that fits: it is marked as the client's and has one user more. */
  lemma LocalGives(t: Table, id: string, tx: bool, identity: string, first: Spawn, second: Spawn)
    requires AllSane(t) && |id| == 4 && identity != "" && |identity| < UUID_SIZE
    requires Owned(t, id, tx, identity, first).at.Some?
    ensures var i, r := Owned(t, id, tx, identity, first).at.value, StartLocal(t, id, tx, identity, first, second);
            && i < |t.slots| == |r.table.slots|
            && var s, u := t.slots[i], r.table.slots[i];
               && u.Codec? && u.id == id && u.tx == tx && u.uuid == identity && u.local && r.chan == Some(u.chan)
               && u.refs == (if s.Codec? then s.refs else 0) + 1 && u.deadline == 0
  {
    var m := Owned(t, id, tx, identity, first);
    var i := m.at.value;
    OwnedShape(t, id, tx, identity, first);
    LocalIsOwned(t, id, tx, identity, first, second);
    if FindChannel(t, id, tx, identity).None? {
      OwnIsFound(t, m.table, id, tx, identity, i);
    } else {
      SamePlace(t.slots, i, m.table.slots[i], Bound(id, tx, identity));
    }
  }

  lemma OwnIsFound(t: Table, u: Table, id: string, tx: bool, identity: string, i: nat)
    requires FindChannel(t, id, tx, identity).None? && identity != ""
    requires i < |t.slots| == |u.slots| && u.slots == t.slots[i := u.slots[i]] && Matches(Bound(id, tx, identity), u.slots[i])
    ensures Known(u, id, tx, Some(identity)) == Some(i)
  {
    PutIsFound(t.slots, i, u.slots[i], Bound(id, tx, identity));
  }

  lemma ShortIsHeld(t: Table, u: Table, id: string, tx: bool, identity: string, i: nat, second: Spawn)
    requires AllSane(u) && AllHeld(t) && id != "" && i < |t.slots| == |u.slots| && u.slots == t.slots[i := u.slots[i]]
    requires Known(u, id, tx, Some(identity)) == Some(i)
    ensures AllHeld(Start(u, id, tx, Some(identity), second, second).table)
  {
    StartShape(u, id, tx, Some(identity), second, second);
    var r := Start(u, id, tx, Some(identity), second, second).table;
    forall k | 0 <= k < |r.slots| ensures Held(r.slots[k]) {
      assert k != i ==> r.slots[k] == t.slots[k];
    }
  }

  lemma LongIsUnknown(u: Table, id: string, tx: bool, identity: string)
    requires AllSane(u) && |identity| >= UUID_SIZE
    ensures Known(u, id, tx, Some(identity)).None?
  {
    forall j | 0 <= j < |u.slots| ensures !Matches(Bound(id, tx, identity), u.slots[j]) {
      assert Sane(u.slots[j]);
    }
  }

  lemma LongIsOrphaned(u: Table, id: string, tx: bool, identity: string, i: nat, second: Spawn)
    requires AllSane(u) && |identity| >= UUID_SIZE && i < |u.slots| && u.slots[i].Codec? && !Held(u.slots[i])
    ensures !AllHeld(Start(u, id, tx, Some(identity), second, second).table)
  {
    StartShape(u, id, tx, Some(identity), second, second);
    LongIsUnknown(u, id, tx, identity);
    FreshShape(u, id, tx, Some(identity), second, second);
    assert Start(u, id, tx, Some(identity), second, second).table.slots[i] == u.slots[i];
  }

  /** An identity of 64 characters leaves a decoder behind that has neither user nor deadline. */
  lemma LongIdentityOrphans(name: string)
    requires |name| == 64
    ensures StartLocal(Empty(2), "mu08", false, name, Spawned, Spawned).chan.Some?
    ensures !AllHeld(StartLocal(Empty(2), "mu08", false, name, Spawned, Spawned).table)
  {
    var t := Empty(2);
    assert Matches(Vacant, t.slots[0]);
    LongIsUnknown(t, "mu08", false, name);
    LocalHeldIff(t, "mu08", false, name, Spawned, Spawned);
    var m := Owned(t, "mu08", false, name, Spawned);
    OwnedShape(t, "mu08", false, name, Spawned);
    LongIsUnknown(m.table, "mu08", false, name);
    assert m.at == Some(0) && Matches(Vacant, m.table.slots[1]);
  }

  // ---------------------------------------------------------------- sweeping

  /** What a sweep makes of one slot. */
  function Swept(s: Slot, users: nat, now: nat, hang: nat): Slot {
    if !s.Codec? then s
    else if !Unswept(s) && users > 0 then Demanded(s, users)
    else if !Unswept(s) && s.refs > 0 then Left(s.(refs := 1), now, hang)
    else if Expired(s, now) then Free
    else s
  }

  lemma SweepAtShape(t: Table, i: nat, users: nat, now: nat, hang: nat)
    requires i < |t.slots|
    ensures SweepAt(t, i, users, now, hang).slots == t.slots[i := Swept(t.slots[i], users, now, hang)]
    ensures SweepAt(t, i, users, now, hang).next == t.next
  {
  }

  lemma {:induction false} SweepFromShape(t: Table, i: nat, users: seq<nat>, now: nat, hang: nat)
    requires |users| == |t.slots| && i <= |t.slots|
    ensures var r := SweepFrom(t, i, users, now, hang);
            && r.next == t.next
            && forall k :: 0 <= k < |t.slots| ==>
                 r.slots[k] == if k < i then t.slots[k] else Swept(t.slots[k], users[k], now, hang)
    decreases |t.slots| - i
  {
    if i < |t.slots| {
      SweepAtShape(t, i, users[i], now, hang);
      SweepFromShape(SweepAt(t, i, users[i], now, hang), i + 1, users, now, hang);
    }
  }

  /** A sweep treats every slot on its own. */
  lemma SweepShape(t: Table, users: seq<nat>, now: nat, hang: nat)
    requires |users| == |t.slots| && Counted(t)
    ensures var r := Sweep(t, users, now, hang);
            && r.next == t.next
            && forall k :: 0 <= k < |t.slots| ==> r.slots[k] == Swept(t.slots[k], users[k], now, hang)
  {
    if t.active == 0 {
      forall k | 0 <= k < |t.slots| ensures t.slots[k].Free? {
        if !t.slots[k].Free? {
          OccupiedSome(t.slots, k);
        }
      }
    } else {
      SweepFromShape(t, 0, users, now, hang);
    }
  }

  lemma SweptSane(s: Slot, users: nat, now: nat, hang: nat)
    requires Sane(s)
    ensures Sane(Swept(s, users, now, hang)) && (Held(s) ==> Held(Swept(s, users, now, hang)))
  {
    if s.Codec? && s.refs > 0 {
      LeftSane(s.(refs := 1), now, hang);
    }
  }

  /** The first sweep at or after its deadline ends a warm encoder that nobody wants again; before that it is left
      as it is; and one that is wanted runs for exactly its users. */
  lemma SweepRetires(t: Table, users: seq<nat>, now: nat, hang: nat, i: nat)
    requires |users| == |t.slots| && Counted(t) && AllSane(t) && i < |t.slots| && t.slots[i].Codec?
    requires t.slots[i].deadline > 0
    ensures var s, r := t.slots[i], Sweep(t, users, now, hang).slots[i];
            if !Unswept(s) && users[i] > 0 then
              r.Codec? && r.refs == users[i] && r.deadline == 0 && r.last == Resume && r.replay && r.chan == s.chan
            else if now >= s.deadline then r.Free?
            else r == s
  {
    SweepShape(t, users, now, hang);
    assert Sane(t.slots[i]);
  }

  /** What a sweep decides for every slot: an instance of a channel gets as many references as the channel has users,
      and is awake if it was warm; without users its last one leaves; and what nobody wants goes at its deadline. */
  lemma SweepFollowsDemand(t: Table, users: seq<nat>, now: nat, hang: nat, i: nat)
    requires |users| == |t.slots| && Counted(t) && AllSane(t) && i < |t.slots| && t.slots[i].Codec?
    ensures var s, r := t.slots[i], Sweep(t, users, now, hang).slots[i];
            if !s.local && s.uuid != "" && users[i] > 0 then
              var warm := s.tx && s.refs == 0 && s.deadline > 0;
              r == Codec(s.id, s.tx, s.uuid, false, users[i], 0, 0, s.chan, if warm then Resume else s.last,
                         warm || s.replay, s.cached)
            else if !s.local && s.uuid != "" && s.refs > 0 && s.tx && hang > 0 then
              r == Codec(s.id, true, s.uuid, false, 0, now + hang, now, s.chan, Pause, s.replay, s.cached)
            else if !s.local && s.uuid != "" && s.refs > 0 then r.Free?
            else if s.refs == 0 && 0 < s.deadline <= now then r.Free?
            else r == s
  {
    SweepShape(t, users, now, hang);
    assert Sane(t.slots[i]);
  }

  lemma SweepSane(t: Table, users: seq<nat>, now: nat, hang: nat)
    requires AllSane(t) && |users| == |t.slots|
    ensures AllSane(Sweep(t, users, now, hang)) && (AllHeld(t) ==> AllHeld(Sweep(t, users, now, hang)))
  {
    SweepFromShape(t, 0, users, now, hang);
    forall k | 0 <= k < |t.slots|
      ensures Sane(Swept(t.slots[k], users[k], now, hang))
      ensures Held(t.slots[k]) ==> Held(Swept(t.slots[k], users[k], now, hang))
    {
      SweptSane(t.slots[k], users[k], now, hang);
    }
  }

  // ---------------------------------------------------------------- whole runs

  datatype Operation =
    | Starts(id: string, tx: bool, uuid: Option<string>, first: Spawn, second: Spawn)
    | StartsLocal(id: string, tx: bool, identity: string, first: Spawn, second: Spawn)
    | Stops(id: string, tx: bool, uuid: Option<string>)
    | Kills(id: string, tx: bool, uuid: Option<string>)
    | Switches(choice: Choice, first: Spawn, second: Spawn)
    | Sweeps(users: seq<nat>)
    | Exits(at: nat)
    | Caches(at: nat, bytes: nat)
    | Opens(name: string, use: Use, spawn: Spawn)
    | Closes(name: string)

  datatype Input = Input(operation: Operation, now: nat, hang: nat)

  function Next(t: Table, i: Input): Table {
    match i.operation
    case Starts(id, tx, uuid, first, second) => Start(t, id, tx, uuid, first, second).table
    case StartsLocal(id, tx, identity, first, second) => StartLocal(t, id, tx, identity, first, second).table
    case Stops(id, tx, uuid) => Stop(t, id, tx, uuid, i.now, i.hang)
    case Kills(id, tx, uuid) => Kill(t, id, tx, uuid)
    case Switches(c, first, second) => Switch(t, c, i.now, i.hang, first, second).table
    case Sweeps(users) => if |users| == |t.slots| then Sweep(t, users, i.now, i.hang) else t
    case Exits(at) => if at < |t.slots| then Destroy(t, at) else t
    case Caches(at, bytes) => Caching(t, at, bytes)
    case Opens(name, use, spawn) => StartProcessor(t, name, use, spawn).table
    case Closes(name) => StopProcessor(t, name).table
  }

  /** Stream headers that a process has sent are kept for later listeners. */
  function Caching(t: Table, i: nat, bytes: nat): Table {
    if i < |t.slots| && t.slots[i].Codec? then t.(slots := t.slots[i := t.slots[i].(cached := t.slots[i].cached + bytes)])
    else t
  }

  lemma CachingKeeps(t: Table, i: nat, bytes: nat)
    ensures AllSane(t) ==> AllSane(Caching(t, i, bytes))
    ensures AllHeld(t) ==> AllHeld(Caching(t, i, bytes))
    ensures Counted(t) ==> Counted(Caching(t, i, bytes))
  {
    if i < |t.slots| && t.slots[i].Codec? && Counted(t) {
      SameCount(t, i, t.slots[i].(cached := t.slots[i].cached + bytes));
    }
  }

  function Empty(size: nat): Table {
    Table(seq(size, _ => Free), 0, 1)
  }

  function Run(size: nat, inputs: seq<Input>): Table
    decreases |inputs|
  {
    if inputs == [] then Empty(size) else Next(Run(size, inputs[..|inputs| - 1]), inputs[|inputs| - 1])
  }

  /** Whether an operation slips: one of its creations fails at the pipes while another slot is counted. */
  predicate OperationSlips(t: Table, o: Operation) {
    match o
    case Starts(id, tx, uuid, first, second) => StartSlips(t, id, tx, uuid, first, second)
    case StartsLocal(id, tx, identity, first, second) => LocalSlips(t, id, tx, identity, first, second)
    case Switches(c, first, second) => SwitchSlips(t, c, first, second)
    case _ => false
  }

  predicate Short(o: Operation) {
    o.StartsLocal? ==> |o.identity| < UUID_SIZE
  }

  lemma DestroySane(t: Table, i: nat)
    requires AllSane(t) && i < |t.slots|
    ensures AllSane(Destroy(t, i)) && (AllHeld(t) ==> AllHeld(Destroy(t, i)))
  {
  }

  predicate IsStart(o: Operation) {
    o.Starts? || o.StartsLocal? || o.Switches?
  }

  lemma NextSane(t: Table, i: Input)
    requires AllSane(t)
    ensures AllSane(Next(t, i))
  {
    if IsStart(i.operation) { NextStartSane(t, i); } else { NextOtherSane(t, i); }
  }

  lemma NextStartSane(t: Table, i: Input)
    requires AllSane(t) && IsStart(i.operation)
    ensures AllSane(Next(t, i))
  {
    match i.operation
    case Starts(id, tx, uuid, first, second) => StartSane(t, id, tx, uuid, first, second);
    case StartsLocal(id, tx, identity, first, second) => LocalSane(t, id, tx, identity, first, second);
    case Switches(c, first, second) => SwitchSane(t, c, i.now, i.hang, first, second);
  }

  lemma NextOtherSane(t: Table, i: Input)
    requires AllSane(t) && !IsStart(i.operation)
    ensures AllSane(Next(t, i)) && (AllHeld(t) ==> AllHeld(Next(t, i)))
  {
    match i.operation
    case Stops(id, tx, uuid) => StopSane(t, id, tx, uuid, i.now, i.hang);
    case Kills(id, tx, uuid) => StopSane(t, id, tx, uuid, i.now, i.hang);
    case Sweeps(users) => if |users| == |t.slots| { SweepSane(t, users, i.now, i.hang); }
    case Exits(at) => if at < |t.slots| { DestroySane(t, at); }
    case Caches(at, bytes) => CachingKeeps(t, at, bytes);
    case Opens(name, use, spawn) => ProcessorKeeps(t, name, use, spawn);
    case Closes(name) => ProcessorKeeps(t, name, Processing, Refused);
  }

  lemma NextCounts(t: Table, i: Input)
    requires Counted(t)
    ensures Counted(Next(t, i)) <==> !OperationSlips(t, i.operation)
  {
    match i.operation
    case Starts(id, tx, uuid, first, second) => StartCounts(t, id, tx, uuid, first, second);
    case StartsLocal(id, tx, identity, first, second) => LocalCounts(t, id, tx, identity, first, second);
    case Switches(c, first, second) => SwitchCounts(t, c, i.now, i.hang, first, second);
    case _ => NextOtherCounts(t, i);
  }

  lemma NextOtherCounts(t: Table, i: Input)
    requires Counted(t) && !IsStart(i.operation)
    ensures Counted(Next(t, i))
  {
    match i.operation
    case Stops(id, tx, uuid) => StopCounts(t, id, tx, uuid, i.now, i.hang);
    case Kills(id, tx, uuid) => StopCounts(t, id, tx, uuid, i.now, i.hang);
    case Sweeps(users) => if |users| == |t.slots| { SweepCounts(t, 0, users, i.now, i.hang); }
    case Exits(at) => if at < |t.slots| { DestroyCounts(t, at); }
    case Caches(at, bytes) => CachingKeeps(t, at, bytes);
    case Opens(name, use, spawn) => ProcessorCounts(t, name, use, spawn);
    case Closes(name) => ProcessorCounts(t, name, Processing, Refused);
  }

  lemma ProcessorKeeps(t: Table, name: string, use: Use, spawn: Spawn)
    requires AllSane(t)
    ensures AllSane(StartProcessor(t, name, use, spawn).table) && AllSane(StopProcessor(t, name).table)
    ensures AllHeld(t) ==> AllHeld(StartProcessor(t, name, use, spawn).table) && AllHeld(StopProcessor(t, name).table)
  {
    if AnyProcessor(t, name).Some? {
      DestroySane(t, AnyProcessor(t, name).value);
    }
  }

  lemma LocalHeld(t: Table, id: string, tx: bool, identity: string, first: Spawn, second: Spawn)
    requires AllSane(t) && AllHeld(t) && |identity| < UUID_SIZE
    ensures AllHeld(StartLocal(t, id, tx, identity, first, second).table)
  {
    if |id| == 4 && identity != "" {
      var m := Owned(t, id, tx, identity, first);
      LocalIsOwned(t, id, tx, identity, first, second);
      OwnedShape(t, id, tx, identity, first);
      if FindChannel(t, id, tx, identity).Some? {
        StartSane(m.table, id, tx, Some(identity), second, second);
      } else if m.at.Some? {
        LocalHeldIff(t, id, tx, identity, first, second);
      }
    }
  }

  lemma NextHeld(t: Table, i: Input)
    requires AllSane(t) && AllHeld(t) && Short(i.operation)
    ensures AllHeld(Next(t, i))
  {
    match i.operation
    case Starts(id, tx, uuid, first, second) => StartSane(t, id, tx, uuid, first, second);
    case StartsLocal(id, tx, identity, first, second) => LocalHeld(t, id, tx, identity, first, second);
    case Switches(c, first, second) => SwitchSane(t, c, i.now, i.hang, first, second);
    case _ => NextOtherSane(t, i);
  }

  lemma {:induction false} EmptyCounts(n: nat)
    ensures Occupied(seq(n, _ => Free)) == 0
  {
    if n > 0 {
      assert seq(n, _ => Free)[1..] == seq(n - 1, _ => Free);
      EmptyCounts(n - 1);
    }
  }

  /** In every run a slot waits for its deadline exactly while the last command sent to it is a pause, and then it is
      an encoder without users. */
  lemma {:induction false} EveryRunWarm(size: nat, inputs: seq<Input>)
    ensures AllSane(Run(size, inputs))
    decreases |inputs|
  {
    if inputs != [] {
      EveryRunWarm(size, inputs[..|inputs| - 1]);
      NextSane(Run(size, inputs[..|inputs| - 1]), inputs[|inputs| - 1]);
    }
  }

  /** While local identities fit their slots, every process in the table has a reference or waits for its deadline. */
  lemma {:induction false} EveryRunHeld(size: nat, inputs: seq<Input>)
    requires forall i :: 0 <= i < |inputs| ==> Short(inputs[i].operation)
    ensures AllHeld(Run(size, inputs))
    decreases |inputs|
  {
    if inputs != [] {
      var front := inputs[..|inputs| - 1];
      EveryRunHeld(size, front);
      EveryRunWarm(size, front);
      NextHeld(Run(size, front), inputs[|inputs| - 1]);
    }
  }

  /** A decoder is never kept without a reference. */
  lemma DecodersAreUsed(size: nat, inputs: seq<Input>, i: nat)
    requires forall k :: 0 <= k < |inputs| ==> Short(inputs[k].operation)
    requires i < |Run(size, inputs).slots| && Run(size, inputs).slots[i].Codec? && !Run(size, inputs).slots[i].tx
    ensures Run(size, inputs).slots[i].refs > 0
  {
    EveryRunWarm(size, inputs);
    EveryRunHeld(size, inputs);
    assert Sane(Run(size, inputs).slots[i]) && Held(Run(size, inputs).slots[i]);
  }

  ghost predicate AlwaysCounted(size: nat, inputs: seq<Input>)
    decreases |inputs|
  {
    Counted(Run(size, inputs)) && (inputs == [] || AlwaysCounted(size, inputs[..|inputs| - 1]))
  }

  predicate NeverSlips(size: nat, inputs: seq<Input>)
    decreases |inputs|
  {
    inputs == [] ||
    (var front := inputs[..|inputs| - 1];
     NeverSlips(size, front) && !OperationSlips(Run(size, front), inputs[|inputs| - 1].operation))
  }

  /** All through a run the counter is the number of slots in use, exactly if no operation of it slips. */
  lemma {:induction false} EveryRunCounted(size: nat, inputs: seq<Input>)
    ensures AlwaysCounted(size, inputs) <==> NeverSlips(size, inputs)
    decreases |inputs|
  {
    if inputs == [] {
      EmptyCounts(size);
    } else {
      var front := inputs[..|inputs| - 1];
      EveryRunCounted(size, front);
      if AlwaysCounted(size, front) {
        CountedNow(size, front);
        NextCounts(Run(size, front), inputs[|inputs| - 1]);
      }
    }
  }

  lemma CountedNow(size: nat, inputs: seq<Input>)
    requires AlwaysCounted(size, inputs)
    ensures Counted(Run(size, inputs))
  {
  }

  lemma SweepFewer(t: Table, users: seq<nat>, now: nat, hang: nat)
    requires |users| == |t.slots|
    ensures NoNewChannels(t, Sweep(t, users, now, hang))
  {
    SweepFromShape(t, 0, users, now, hang);
  }

  lemma OpensFewer(t: Table, name: string, use: Use, spawn: Spawn)
    ensures NoNewChannels(t, StartProcessor(t, name, use, spawn).table)
  {
    if Tries(t) {
      var i, n := Found(t.slots, Vacant).value, IdentityOf(name, SpaceOf(use));
      if n.Some? {
        EndpointPutFewer(t, i, Processor(n.value.space, n.value.name), t.active + 1, t.next + 1);
      }
    }
  }

  lemma EndpointPutFewer(t: Table, i: nat, s: Slot, active: nat, next: nat)
    requires i < |t.slots| && !s.Codec? && next >= t.next
    ensures NoNewChannels(t, Table(t.slots[i := s], active, next))
  {
  }

  lemma ClosesFewer(t: Table, name: string)
    ensures NoNewChannels(t, StopProcessor(t, name).table)
  {
    var i := AnyProcessor(t, name);
    if i.Some? {
      OthersFewer(t, i.value, 0);
    }
  }

  lemma OthersFewer(t: Table, at: nat, bytes: nat)
    ensures NoNewChannels(t, Caching(t, at, bytes)) && (at < |t.slots| ==> NoNewChannels(t, Destroy(t, at)))
  {
  }

  lemma NextOtherFewer(t: Table, i: Input)
    requires !IsStart(i.operation)
    ensures NoNewChannels(t, Next(t, i))
  {
    match i.operation
    case Stops(id, tx, uuid) => StopFewer(t, id, tx, uuid, i.now, i.hang);
    case Kills(id, tx, uuid) => StopFewer(t, id, tx, uuid, i.now, i.hang);
    case Sweeps(users) => if |users| == |t.slots| { SweepFewer(t, users, i.now, i.hang); }
    case Exits(at) => OthersFewer(t, at, 0);
    case Caches(at, bytes) => OthersFewer(t, at, bytes);
    case Opens(name, use, spawn) => OpensFewer(t, name, use, spawn);
    case Closes(name) => ClosesFewer(t, name);
  }

  /** In every run the codecs in the table have channel numbers that were given out, and no two share one. */
  lemma {:induction false} EveryRunDiffers(size: nat, inputs: seq<Input>)
    ensures ChannelsDiffer(Run(size, inputs))
    decreases |inputs|
  {
    if inputs != [] {
      var t, i := Run(size, inputs[..|inputs| - 1]), inputs[|inputs| - 1];
      EveryRunDiffers(size, inputs[..|inputs| - 1]);
      match i.operation
      case Starts(id, tx, uuid, first, second) => StartDiffers(t, id, tx, uuid, first, second);
      case StartsLocal(id, tx, identity, first, second) => LocalDiffers(t, id, tx, identity, first, second);
      case Switches(c, first, second) => SwitchDiffers(t, c, i.now, i.hang, first, second);
      case _ =>
        NextOtherFewer(t, i);
        FewerDiffer(t, Next(t, i));
    }
  }

  // ---------------------------------------------------------------- the manager

  class Manager {
    const slots: array<Slot>
    var active: nat
    var nextChannel: nat

    ghost function Now(): Table
      reads this, slots
    {
      Table(slots[..], active, nextChannel)
    }

    constructor (size: nat)
      ensures fresh(slots) && Now() == Empty(size)
    {
      slots := new Slot[size](_ => Free);
      active, nextChannel := 0, 1;
      new;
      assert slots[..] == seq(size, _ => Free);
    }

    method Search(k: Key) returns (r: Option<nat>)
      ensures r == Found(slots[..], k)
    {
      var i := 0;
      assert slots[0..] == slots[..];
      while i < slots.Length
        invariant i <= slots.Length && First(slots[..], k) == i + First(slots[i..], k)
      {
        assert slots[i..][1..] == slots[i + 1..];
        if Matches(k, slots[i]) {
          return Some(i);
        }
        i := i + 1;
      }
      r := None;
    }

    method Find(id: string, tx: bool, uuid: Option<string>) returns (r: Option<nat>)
      ensures r == Known(Now(), id, tx, uuid)
    {
      if uuid.Some? && uuid.value != "" {
        r := Search(Bound(id, tx, uuid.value));
      } else if active == 0 {
        r := None;
      } else {
        r := Search(Any(id, tx));
      }
    }

    method Allocate(id: string, tx: bool, uuid: string, spawn: Spawn) returns (at: Option<nat>)
      modifies this, slots
      ensures Made(Now(), at) == Create(old(Now()), id, tx, uuid, spawn)
    {
      if active >= slots.Length {
        return None;
      }
      var i := Search(Vacant);
      if i.None? {
        return None;
      }
      at := Launch(i.value, id, tx, uuid, spawn);
    }

    /** Fills a free slot and starts its process; a process that does not come up gives the slot back. */
    method Launch(i: nat, id: string, tx: bool, uuid: string, spawn: Spawn) returns (at: Option<nat>)
      requires i < slots.Length && slots[i].Free?
      modifies this, slots
      ensures var t := old(Now());
              Made(Now(), at) == match spawn
                case Spawned => Made(Table(t.slots[i := NewSlot(id, tx, uuid, t.next)], t.active + 1, t.next + 1), Some(i))
                case Refused => Made(t.(next := t.next + 1), None)
                case Unattached => Made(t.(active := Less(t.active), next := t.next + 1), None)
    {
      ghost var was := slots[..];
      slots[i] := NewSlot(id, tx, uuid, nextChannel);
      active, nextChannel := active + 1, nextChannel + 1;
      assert slots[..] == was[i := slots[i]];
      if spawn.Spawned? {
        return Some(i);
      }
      if spawn.Unattached? {
        Remove(i);
      }
      slots[i] := Free;
      active := Less(active);
      assert slots[..] == was;
      at := None;
    }

    method Remove(i: nat)
      requires i < slots.Length
      modifies this, slots
      ensures Now() == Destroy(old(Now()), i)
    {
      if slots[i].Free? {
        return;
      }
      slots[i] := Free;
      active := Less(active);
    }

    method Get(id: string, tx: bool, uuid: Option<string>, first: Spawn, second: Spawn) returns (at: Option<nat>)
      modifies this, slots
      ensures Made(Now(), at) == Obtain(old(Now()), id, tx, uuid, first, second)
    {
      at := Find(id, tx, uuid);
      if at.Some? {
        return;
      }
      var named := uuid.Some? && uuid.value != "";
      if !named {
        at := Allocate(id, tx, "", first);
      }
      if at.None? && uuid.Some? {
        at := Allocate(id, tx, uuid.value, if named then first else second);
      }
    }

    method FindEndpoint(name: string, default: string) returns (r: Option<nat>)
      ensures r == FindProcessor(Now(), name, default)
    {
      var n := IdentityOf(name, default);
      if n.None? {
        return None;
      }
      r := Search(Endpoint(n.value.space, n.value.name));
    }

    method StartEndpoint(name: string, use: Use, spawn: Spawn) returns (ok: bool)
      modifies this, slots
      ensures Opened(Now(), ok) == StartProcessor(old(Now()), name, use, spawn)
    {
      var n := IdentityOf(name, SpaceOf(use));
      if |name| >= NAME_SIZE || n.None? || n.value.space != SpaceOf(use) || !Plain(n.value.name) {
        return false;
      }
      var known := FindEndpoint(name, SpaceOf(use));
      if known.Some? || active >= slots.Length {
        return false;
      }
      var i := Search(Vacant);
      if i.None? {
        return false;
      }
      ok := OpenEndpoint(i.value, n.value, spawn);
    }

    method OpenEndpoint(i: nat, n: Identity, spawn: Spawn) returns (ok: bool)
      requires i < slots.Length && slots[i].Free?
      modifies this, slots
      ensures var t := old(Now());
              Opened(Now(), ok) ==
              if spawn.Spawned? then Opened(Table(t.slots[i := Processor(n.space, n.name)], t.active + 1, t.next + 1), true)
              else Opened(t.(next := t.next + 1), false)
    {
      ghost var was := slots[..];
      slots[i] := Processor(n.space, n.name);
      active, nextChannel := active + 1, nextChannel + 1;
      ok := spawn.Spawned?;
      if !ok {
        Remove(i);
        assert slots[..] == was;
      }
    }

    method StopEndpoint(name: string) returns (found: bool)
      modifies this, slots
      ensures Opened(Now(), found) == StopProcessor(old(Now()), name)
    {
      var at := FindEndpoint(name, "proc");
      if at.None? {
        at := FindEndpoint(name, "src");
      }
      if at.None? {
        at := FindEndpoint(name, "sink");
      }
      if at.None? {
        at := FindEndpoint(name, "recode");
      }
      found := at.Some?;
      if found {
        Remove(at.value);
      }
    }

    method StartCodec(id: string, tx: bool, uuid: Option<string>, first: Spawn, second: Spawn) returns (chan: Option<nat>)
      modifies this, slots
      ensures Started(Now(), chan) == Start(old(Now()), id, tx, uuid, first, second)
    {
      if id == "" {
        return None;
      }
      var at := Get(id, tx, uuid, first, second);
      if at.None? {
        return None;
      }
      var s := slots[at.value];
      if s.tx && s.refs == 0 && s.deadline > 0 {
        s := s.(replay := true, last := Resume);
      }
      slots[at.value] := s.(deadline := 0, since := 0, refs := s.refs + 1);
      chan := Some(s.chan);
    }

    method IdlePipeline(i: nat, now: nat, hang: nat)
      requires i < slots.Length && slots[i].Codec?
      modifies this, slots
      ensures Now() == Idle(old(Now()), i, now, hang)
    {
      if slots[i].tx && hang > 0 {
        slots[i] := slots[i].(refs := 0, last := Pause, since := now, deadline := now + hang);
      } else {
        Remove(i);
      }
    }

    method StopCodec(id: string, tx: bool, uuid: Option<string>, now: nat, hang: nat) returns (found: bool)
      modifies this, slots
      ensures Now() == Stop(old(Now()), id, tx, uuid, now, hang)
      ensures found == (id != "" && ToStop(old(Now()), id, tx, uuid).Some?)
    {
      if id == "" {
        return false;
      }
      var at := Find(id, tx, uuid);
      if at.None? && uuid.Some? && uuid.value != "" {
        at := Search(Unbound(id, tx));
      }
      if at.None? {
        return false;
      }
      Drop(at.value, now, hang);
      found := true;
    }

    method Drop(i: nat, now: nat, hang: nat)
      requires i < slots.Length && slots[i].Codec?
      modifies this, slots
      ensures Now() == Release(old(Now()), i, now, hang)
    {
      if slots[i].refs > 1 {
        slots[i] := slots[i].(refs := slots[i].refs - 1);
      } else {
        IdlePipeline(i, now, hang);
      }
    }

    method KillCodec(id: string, tx: bool, uuid: Option<string>) returns (found: bool)
      modifies this, slots
      ensures Now() == Kill(old(Now()), id, tx, uuid)
      ensures found == (id != "" && FindFor(old(Now()), id, tx, uuid).Some?)
    {
      if id == "" {
        return false;
      }
      var at := Find(id, tx, uuid);
      if at.None? {
        return false;
      }
      Remove(at.value);
      found := true;
    }

    method StartLocalCodec(id: string, tx: bool, identity: string, first: Spawn, second: Spawn) returns (chan: Option<nat>)
      modifies this, slots
      ensures Started(Now(), chan) == StartLocal(old(Now()), id, tx, identity, first, second)
    {
      if |id| != 4 || identity == "" {
        return None;
      }
      var at := Find(id, tx, Some(identity));
      if at.None? {
        at := Allocate(id, tx, identity, first);
      }
      if at.None? {
        return None;
      }
      slots[at.value] := slots[at.value].(local := true);
      chan := StartCodec(id, tx, Some(identity), second, second);
    }

    method SwitchCodec(c: Choice, now: nat, hang: nat, first: Spawn, second: Spawn) returns (chan: Option<nat>)
      modifies this, slots
      ensures Started(Now(), chan) == Switch(old(Now()), c, now, hang, first, second)
    {
      if |c.id| != 4 {
        return None;
      }
      if c.was.Some? && c.was.value == c.id {
        var at := Find(c.id, c.tx, c.uuid);
        if at.Some? {
          if slots[at.value].refs > 0 {
            return Some(slots[at.value].chan);
          }
          chan := StartCodec(c.id, c.tx, c.uuid, first, second);
          return;
        }
      }
      chan := StartCodec(c.id, c.tx, c.uuid, first, second);
      if chan.Some? {
        Change(c, now, hang);
      }
    }

    method Change(c: Choice, now: nat, hang: nat)
      modifies this, slots
      ensures Now() == Changeover(old(Now()), c, now, hang)
    {
      var at := Find(c.id, c.tx, c.uuid);
      if at.Some? && slots[at.value].cached > 0 {
        slots[at.value] := slots[at.value].(replay := true);
      }
      if c.was.Some? && |c.was.value| == 4 && c.was.value != c.id {
        var _ := StopCodec(c.was.value, c.tx, c.uuid, now, hang);
      }
    }

    method SweepExpired(users: seq<nat>, now: nat, hang: nat)
      requires |users| == slots.Length
      modifies this, slots
      ensures Now() == Sweep(old(Now()), users, now, hang)
    {
      if active == 0 {
        return;
      }
      var i := 0;
      while i < slots.Length
        invariant i <= slots.Length
        invariant SweepFrom(Now(), i, users, now, hang) == SweepFrom(old(Now()), 0, users, now, hang)
      {
        SweepSlot(i, users[i], now, hang);
        i := i + 1;
      }
    }

    method SweepSlot(i: nat, users: nat, now: nat, hang: nat)
      requires i < slots.Length
      modifies this, slots
      ensures Now() == SweepAt(old(Now()), i, users, now, hang)
    {
      var s := slots[i];
      if !s.Codec? {
        return;
      }
      if !s.local && s.uuid != "" {
        if users > 0 {
          if s.tx && s.refs == 0 && s.deadline > 0 {
            s := s.(replay := true, last := Resume);
          }
          slots[i] := s.(refs := users, deadline := 0, since := 0);
          return;
        }
        if s.refs > 0 {
          IdlePipeline(i, now, hang);
          return;
        }
      }
      if s.refs == 0 && s.deadline > 0 && now >= s.deadline {
        Remove(i);
      }
    }
  }
}
