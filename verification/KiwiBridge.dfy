/** The bridge host and its Kiwi driver: every tune request is answered once and in time, whatever the
    network does, and the driver opens a bounded number of connections. */
module KiwiBridge {

  const CONNECT_TIME: nat := 10000000
  const CONFIGURE_TIME: nat := 5000000
  const TUNE_TIME: nat := 4_000_000
  const SILENCE: nat := 10000000
  const SECOND: nat := 1000000
  const NEVER: nat := 0xffff_ffff_ffff_ffff
  const ATTEMPTS: nat := 3
  const REDIRECTS: nat := 8
  const KIWI_MAX_HZ: nat := 30000000

  datatype Option<T> = None | Some(value: T)

  datatype Tune = Tune(hz: nat, mode: string)

  /** A SET command that the host has taken, and a RESULT that it has sent. */
  datatype Order = Order(request: nat, tune: Tune, at: nat)
  datatype Answer = Answer(request: nat, success: bool, tune: Tune)

  datatype Host = Host(failed: bool, mismatched: bool, pending: nat, rxMax: nat, orders: seq<Order>, answers: seq<Answer>)

  datatype Link = Down | Up(websocket: bool, closing: bool)

  datatype Kiwi = Kiwi(
    link: Link, authenticated: bool, configured: bool, online: bool, confirmed: bool, failed: bool, redirecting: bool,
    rate: nat, failures: nat, attempts: nat, redirects: nat, maxHz: nat,
    now: Tune, wanted: Tune, told: string, request: nat, deadline: nat, retry: nat, received: nat, sequence: Option<nat>,
    opens: nat, followed: nat)

  datatype System = System(host: Host, kiwi: Kiwi)

  // ---------------------------------------------------------------- the host's callbacks

  /** A completion that is not for the pending request is a fault of the driver. */
  function Complete(s: System, request: nat, success: bool): System {
    if request == 0 || request != s.host.pending then s.(host := s.host.(failed := true, mismatched := true))
    else s.(host := s.host.(pending := 0, answers := s.host.answers + [Answer(request, success, s.kiwi.now)]))
  }

  function Available(s: System): System {
    s.(host := s.host.(rxMax := s.kiwi.maxHz))
  }

  // ---------------------------------------------------------------- the driver

  /** Ends the session for the host: the request is answered before the radio is reported offline. */
  function Unavailable(s: System): System {
    var k := s.kiwi;
    var cleared := s.(kiwi := k.(request := 0));
    var told := if k.request != 0 then Complete(cleared, k.request, false) else cleared;
    told.(kiwi := told.kiwi.(online := false, wanted := if k.confirmed then k.now else k.wanted))
  }

  function Closing(l: Link): Link {
    if l.Up? then l.(closing := true) else l
  }

  function Fail(s: System): System {
    if s.kiwi.failed then s
    else
      var t := Unavailable(s.(kiwi := s.kiwi.(failed := true)));
      t.(kiwi := t.kiwi.(link := Closing(t.kiwi.link)))
  }

  predicate CanSend(k: Kiwi) {
    k.link.Up? && k.link.websocket && !k.link.closing
  }

  function Lower(c: char): char {
    if 'A' <= c <= 'Z' then (c as int + 32) as char else c
  }

  predicate SameWord(s: string, lower: string) {
    |s| == |lower| && forall i :: 0 <= i < |s| ==> Lower(s[i]) == lower[i]
  }

  predicate Tunable(k: Kiwi, t: Tune) {
    && t.hz <= k.maxHz
    && (SameWord(t.mode, "usb") || SameWord(t.mode, "lsb") || SameWord(t.mode, "am") || SameWord(t.mode, "cw"))
  }

  function Digits(n: nat): string {
    if n < 10 then [('0' as int + n) as char] else Digits(n / 10) + [('0' as int + n % 10) as char]
  }

  /** A frequency in kHz with three decimals. */
  function Kilohertz(hz: nat): string {
    var m := hz % 1000;
    Digits(hz / 1000) + "." + Digits(m / 100) + Digits(m / 10 % 10) + Digits(m % 10)
  }

  /** The command that tunes the receiver, with the passband of the mode. */
  function TuneCommand(t: Tune): string {
    (if SameWord(t.mode, "usb") then "SET mod=usb low_cut=300 high_cut=2700 freq="
     else if SameWord(t.mode, "lsb") then "SET mod=lsb low_cut=-2700 high_cut=-300 freq="
     else if SameWord(t.mode, "am") then "SET mod=am low_cut=-4900 high_cut=4900 freq="
     else "SET mod=cw low_cut=300 high_cut=700 freq=") + Kilohertz(t.hz)
  }

  /** The parameters of a setup message, read into what they mean. */
  datatype Parameter =
    | LoadConfig(disabled: bool)
    | BadPassword(rejected: bool)
    | Refusal
    | Bandwidth(hz: Option<nat>)
    | SampleRate(hz: Option<nat>)
    | AudioRate(valid: bool)
    | FrequencyOffset(nonzero: bool)
    | OtherParameter

  /** A parameter and whether the commands it leads to go out: a reply, and the receiver setup. */
  datatype Item = Item(parameter: Parameter, replied: bool, setUp: bool)

  datatype Message =
    | Setup(items: seq<Item>)
    | Audio(valid: bool, compressed: bool, even: bool, sequence: nat, newFrequency: bool)
    | Telemetry
    | Malformed

  datatype Step = Step(system: System, ok: bool)

  function Configure(s: System, setUp: bool, now: nat): Step {
    var k := s.kiwi;
    if !k.authenticated || k.rate == 0 || k.configured then Step(s, true)
    else if !Tunable(k, k.wanted) || !CanSend(k) || !setUp then Step(s, false)
    else Step(s.(kiwi := k.(configured := true, told := TuneCommand(k.wanted), deadline := now + CONFIGURE_TIME)), true)
  }

  /** A parameter ends the session, is refused, or changes what is known of the receiver. */
  datatype Effect = Ends | Refuses | Learns(authenticated: bool, maxHz: nat, rate: nat)

  /** The parameters by which a receiver ends the session. */
  predicate Ending(p: Parameter) {
    match p
    case LoadConfig(disabled) => disabled
    case BadPassword(rejected) => rejected
    case FrequencyOffset(nonzero) => nonzero
    case Refusal => true
    case _ => false
  }

  function EffectOf(k: Kiwi, i: Item): Effect {
    if Ending(i.parameter) then Ends
    else Learned(i, k.failed, CanSend(k), k.authenticated, k.maxHz, k.rate)
  }

  function Learned(i: Item, failed: bool, writable: bool, authenticated: bool, maxHz: nat, rate: nat): Effect {
    var same := Learns(authenticated, maxHz, rate);
    match i.parameter
    case LoadConfig(_) => if failed then Refuses else same
    case BadPassword(_) => Learns(true, maxHz, rate)
    case Refusal => Ends
    case Bandwidth(hz) =>
      if hz.None? || hz.value == 0 || hz.value > 1000000000 then Refuses
      else Learns(authenticated, if hz.value < KIWI_MAX_HZ then hz.value else KIWI_MAX_HZ, rate)
    case SampleRate(hz) =>
      if hz.None? || hz.value < 8000 || hz.value > 48000 || (rate != 0 && rate != hz.value) then Refuses
      else Learns(authenticated, maxHz, hz.value)
    case AudioRate(valid) => if valid && writable && i.replied then same else Refuses
    case FrequencyOffset(_) => same
    case OtherParameter => same
  }

  /** What a parameter does before the receiver is set up; not ok ends the session. */
  function Note(s: System, i: Item): Step {
    match EffectOf(s.kiwi, i)
    case Ends => Step(Fail(s), false)
    case Refuses => Step(s, false)
    case Learns(authenticated, maxHz, rate) =>
      Step(s.(kiwi := s.kiwi.(authenticated := authenticated, maxHz := maxHz, rate := rate)), true)
  }

  function Apply(s: System, i: Item, now: nat): Step {
    var noted := Note(s, i);
    if noted.ok then Configure(noted.system, i.setUp, now) else noted
  }

  function ApplyAll(s: System, items: seq<Item>, now: nat): Step
    decreases |items|
  {
    if items == [] then Step(s, true)
    else
      var first := Apply(s, items[0], now);
      if first.ok then ApplyAll(first.system, items[1..], now) else first
  }

  /** A sequence number that is not ahead of the last one, on a 32-bit circle. */
  predicate Stale(last: Option<nat>, sequence: nat) {
    last.Some? && ((sequence - last.value) % 0x1_0000_0000 == 0 || (sequence - last.value) % 0x1_0000_0000 >= 0x8000_0000)
  }

  /** The first packet with the new frequency confirms the tune and answers the request. */
  function Confirm(s: System): System {
    var k := s.kiwi;
    var t := Available(s.(kiwi := k.(now := k.wanted, online := true, confirmed := true)));
    var told := if k.request != 0 then Complete(t, k.request, true) else t;
    told.(kiwi := told.kiwi.(request := 0))
  }

  function Receive(s: System, m: Message, now: nat): Step {
    var k := s.kiwi;
    match m
    case Malformed => Step(s, false)
    case Telemetry => Step(s, true)
    case Setup(items) => ApplyAll(s, items, now)
    case Audio(valid, compressed, even, sequence, newFrequency) =>
      if !valid || !k.configured || k.rate == 0 then Step(s, false)
      else if compressed then Step(s, !k.online)
      else if !even then Step(s, false)
      else if Stale(k.sequence, sequence) then Step(s, true)
      else
        var t := s.(kiwi := k.(sequence := Some(sequence), received := now));
        Step(if (!k.online || k.request != 0) && newFrequency then Confirm(t) else t, true)
  }

  // ---------------------------------------------------------------- network events

  /** What the connection reports; location says that a response redirects to a usable address. */
  datatype Event =
    | WsOpen(password: bool, sent: bool)
    | WsMessage(message: Message)
    | Read(location: bool, tooLong: bool)
    | Error(location: bool)
    | Close

  predicate Redirects(k: Kiwi, location: bool) {
    !k.redirecting && k.link.Up? && !k.link.websocket && location && k.redirects < REDIRECTS
  }

  function Redirect(k: Kiwi): Kiwi {
    k.(redirects := k.redirects + 1, redirecting := true, link := Closing(k.link))
  }

  function Backoff(failures: nat): nat
    requires failures <= 6
  {
    if failures == 0 then 1 else 2 * Backoff(failures - 1)
  }

  function Closed(s: System, now: nat): System {
    var k := s.kiwi.(link := Down);
    if k.redirecting then s.(kiwi := Hopped(k, now))
    else Waiting(Unavailable(s.(kiwi := k)), now)
  }

  /** A hop is not an attempt. */
  function Hopped(k: Kiwi, now: nat): Kiwi {
    k.(redirecting := false, attempts := if k.attempts > 0 then k.attempts - 1 else 0, retry := now,
       followed := k.followed + 1)
  }

  /** After three attempts no more; before, a pause that doubles up to about a minute. */
  function Waiting(s: System, now: nat): System {
    var k := s.kiwi;
    if k.attempts >= ATTEMPTS then s.(kiwi := k.(retry := NEVER))
    else
      s.(kiwi := k.(retry := now + Backoff(if k.failures < 6 then k.failures else 6) * SECOND,
                    failures := if k.failures < 6 then k.failures + 1 else k.failures))
  }

  /** A connection that is being closed opens no websocket any more; without one there are no events. */
  function Network(s: System, e: Event, now: nat): System {
    var k := s.kiwi;
    if k.link.Down? then s
    else
      match e
      case WsOpen(password, sent) =>
        if k.link.websocket || k.link.closing then s
        else
          var open := s.(kiwi := k.(link := k.link.(websocket := true)));
          if !password || !sent then Fail(open) else open
      case WsMessage(m) =>
        if !k.link.websocket || k.failed then s
        else
          var r := Receive(s, m, now);
          if r.ok then r.system else Fail(r.system)
      case Read(location, tooLong) =>
        if Redirects(k, location) then s.(kiwi := Redirect(k)) else if tooLong then Fail(s) else s
      case Error(location) =>
        var closing := s.(kiwi := k.(link := Closing(k.link)));
        if Redirects(k, location) then s.(kiwi := Redirect(k)) else if k.redirecting then closing else Fail(closing)
      case Close => Closed(s, now)
  }

  // ---------------------------------------------------------------- polling

  /** The first half of a poll: connects if it is time. */
  function PollStart(s: System, now: nat, agent: bool, connects: bool): System {
    var k := s.kiwi;
    if k.link.Up? || now < k.retry || k.attempts >= ATTEMPTS then s
    else
      if !agent then Fail(s.(kiwi := Renewed(k))) else s.(kiwi := Dialled(Renewed(k), now, connects))
  }

  function Renewed(k: Kiwi): Kiwi {
    Forgotten(k.(attempts := k.attempts + 1)).(online := false, failed := false)
  }

  /** Nothing of the last session's setup is kept. */
  function Forgotten(k: Kiwi): Kiwi {
    k.(authenticated := false, configured := false, sequence := None, rate := 0)
  }

  function Dialled(k: Kiwi, now: nat, connects: bool): Kiwi {
    k.(link := if connects then Up(false, false) else Down, opens := k.opens + 1,
       deadline := now + CONNECT_TIME, received := now, retry := if connects then k.retry else now + SECOND)
  }

  predicate TimedOut(k: Kiwi, now: nat) {
    (!k.online && now >= k.deadline) || (k.request != 0 && now >= k.deadline) || now - k.received > SILENCE
  }

  /** The second half: a session that is late or silent ends; keepalive says if one is due and does not go out. */
  function PollEnd(s: System, now: nat, keepaliveFails: bool): System {
    var k := s.kiwi;
    if k.link.Down? then s
    else if TimedOut(k, now) then Fail(s)
    else if k.link.websocket && keepaliveFails then Fail(s)
    else s
  }

  // ---------------------------------------------------------------- the command loop

  /** Starts a tune; not ok leaves everything as it was. */
  function SetReceiver(s: System, request: nat, tune: Tune, sent: bool, now: nat): Step {
    var k := s.kiwi;
    if !k.online || k.request != 0 || request == 0 then Step(s, false)
    else if !Tunable(k, tune) then Step(s, false)
    else if tune == k.now then Step(Complete(s, request, true), true)
    else if !CanSend(k) || !sent then Step(s, false)
    else Step(s.(kiwi := k.(wanted := tune, told := TuneCommand(tune), request := request, deadline := now + TUNE_TIME)), true)
  }

  datatype Command = Set(request: nat, tune: Tune, listed: bool, sent: bool) | Harmless | Unexpected

  /** One command from the server; a second request before the first is answered is a fault of the server. */
  function Obey(s: System, c: Command, now: nat): System {
    if s.host.failed || c.Harmless? then s
    else if c.Unexpected? || s.host.pending != 0 then s.(host := s.host.(failed := true))
    else
      var taken := s.(host := s.host.(pending := c.request, orders := s.host.orders + [Order(c.request, c.tune, now)]));
      if c.tune.hz > s.host.rxMax || !c.listed then Complete(taken, c.request, false)
      else
        var r := SetReceiver(taken, c.request, c.tune, c.sent, now);
        if r.ok then r.system else Complete(r.system, c.request, false)
  }

  datatype Action =
    | Commanded(command: Command)
    | Started(agent: bool, connects: bool)
    | Happened(event: Event)
    | Ended(keepaliveFails: bool)
    | IpcFailed

  datatype Input = Input(action: Action, at: nat)

  function Next(s: System, i: Input): System {
    match i.action
    case Commanded(c) => Obey(s, c, i.at)
    case Started(agent, connects) => PollStart(s, i.at, agent, connects)
    case Happened(e) => Network(s, e, i.at)
    case Ended(fails) => PollEnd(s, i.at, fails)
    case IpcFailed => s.(host := s.host.(failed := true))
  }

  function Initial(wanted: Tune): System {
    System(Host(false, false, 0, KIWI_MAX_HZ, [], []),
           Kiwi(Down, false, false, false, false, false, false, 0, 0, 0, 0, KIWI_MAX_HZ,
                Tune(14074000, "USB"), wanted, "", 0, 0, 0, 0, None, 0, 0))
  }

  function Run(wanted: Tune, inputs: seq<Input>): System
    decreases |inputs|
  {
    if inputs == [] then Initial(wanted) else Next(Run(wanted, inputs[..|inputs| - 1]), inputs[|inputs| - 1])
  }

  // ---------------------------------------------------------------- what every run keeps

  /** The orders that carry an id. */
  function Numbered(orders: seq<Order>): seq<Order> {
    if orders == [] then []
    else
      var last := orders[|orders| - 1];
      Numbered(orders[..|orders| - 1]) + if last.request != 0 then [last] else []
  }

  predicate HasZero(orders: seq<Order>) {
    exists i :: 0 <= i < |orders| && orders[i].request == 0
  }

  /** Each answer is for its own order, and a success reports the tune that was ordered. */
  predicate Fits(o: Order, a: Answer) {
    a.request == o.request && (a.success ==> a.tune == o.tune)
  }

  predicate Answers(orders: seq<Order>, answers: seq<Answer>) {
    |answers| <= |orders| && forall i :: 0 <= i < |answers| ==> Fits(orders[i], answers[i])
  }

  /** All numbered orders are answered, in order, but for the one that is pending. */
  ghost predicate Ledger(h: Host, orders: seq<Order>) {
    && Answers(orders, h.answers)
    && |orders| == |h.answers| + (if h.pending != 0 then 1 else 0)
    && (h.pending != 0 ==> orders[|orders| - 1].request == h.pending)
  }

  ghost predicate Books(s: System) {
    var orders := Numbered(s.host.orders);
    && Ledger(s.host, orders) && (s.host.mismatched <==> HasZero(s.host.orders))
    && s.host.pending == s.kiwi.request
    && (s.kiwi.request != 0 ==> var o := orders[|orders| - 1];
                                s.kiwi.wanted == o.tune && s.kiwi.deadline == o.at + TUNE_TIME)
  }

  predicate Linked(k: Kiwi) {
    && (k.redirecting ==> k.link.Up? && !k.link.websocket && k.link.closing)
    && (k.link.Up? ==> k.attempts >= 1)
  }

  predicate Session(k: Kiwi) {
    && (k.online ==> k.link.Up? && k.link.websocket && k.configured && !k.failed && k.rate != 0)
    && (k.request != 0 ==> k.online)
  }

  /** The last tune command of a live session is for what is wanted, and that is what the host knows unless a request
      is under way. */
  predicate Tuned(k: Kiwi) {
    && (k.link.Up? && k.configured && !k.failed ==> k.told == TuneCommand(k.wanted))
    && (k.online && k.request == 0 ==> k.wanted == k.now)
  }

  predicate Budget(k: Kiwi) {
    && k.attempts <= ATTEMPTS && k.redirects <= REDIRECTS
    && k.followed + (if k.redirecting then 1 else 0) == k.redirects
    && k.opens <= k.attempts + k.followed
  }

  ghost predicate Inv(s: System) {
    Books(s) && Linked(s.kiwi) && Session(s.kiwi) && Budget(s.kiwi) && Tuned(s.kiwi)
  }

  lemma AnsweredBooks(s: System, success: bool)
    requires s.host.pending != 0
    requires Ledger(s.host, Numbered(s.host.orders)) && (s.host.mismatched <==> HasZero(s.host.orders))
    requires success ==> s.kiwi.now == Numbered(s.host.orders)[|Numbered(s.host.orders)| - 1].tune
    ensures var t := Complete(s, s.host.pending, success);
            && t.kiwi == s.kiwi && t.host.pending == 0 && t.host.orders == s.host.orders
            && Ledger(t.host, Numbered(t.host.orders)) && (t.host.mismatched <==> HasZero(t.host.orders))
  {
  }

  lemma UnavailableBooks(s: System)
    requires Books(s)
    ensures var t := Unavailable(s);
            && Books(t) && t.host.orders == s.host.orders
            && t.kiwi == s.kiwi.(request := 0, online := false, wanted := if s.kiwi.confirmed then s.kiwi.now else s.kiwi.wanted)
  {
    if s.kiwi.request != 0 {
      AnsweredBooks(s.(kiwi := s.kiwi.(request := 0)), false);
    }
  }

  lemma FailInv(s: System)
    requires Books(s) && Linked(s.kiwi) && Budget(s.kiwi) && (s.kiwi.failed ==> Session(s.kiwi) && Tuned(s.kiwi))
    ensures Inv(Fail(s)) && Fail(s).kiwi.request == 0 && Fail(s).host.orders == s.host.orders
  {
    if !s.kiwi.failed {
      UnavailableBooks(s.(kiwi := s.kiwi.(failed := true)));
    }
  }

  lemma ConfirmInv(s: System)
    requires Inv(s) && s.kiwi.link.Up? && s.kiwi.link.websocket && s.kiwi.configured && !s.kiwi.failed && s.kiwi.rate != 0
    ensures Inv(Confirm(s))
  {
    if s.kiwi.request != 0 {
      AnsweredBooks(Available(s.(kiwi := s.kiwi.(now := s.kiwi.wanted, online := true, confirmed := true))), true);
    }
  }

  /** A session that can take messages. */
  predicate Listening(k: Kiwi) {
    k.link.Up? && k.link.websocket && !k.failed
  }

  lemma LearnInv(s: System, authenticated: bool, maxHz: nat, rate: nat)
    requires Inv(s) && Listening(s.kiwi) && (s.kiwi.rate != 0 ==> rate != 0)
    ensures var t := s.(kiwi := s.kiwi.(authenticated := authenticated, maxHz := maxHz, rate := rate));
            Inv(t) && Listening(t.kiwi)
  {
  }

  lemma NoteInv(s: System, i: Item)
    requires Inv(s) && Listening(s.kiwi)
    ensures Inv(Note(s, i).system) && (Note(s, i).ok ==> Listening(Note(s, i).system.kiwi))
  {
    match EffectOf(s.kiwi, i)
    case Ends => FailInv(s);
    case Refuses =>
    case Learns(authenticated, maxHz, rate) => LearnInv(s, authenticated, maxHz, rate);
  }

  lemma ConfigureInv(s: System, setUp: bool, now: nat)
    requires Inv(s) && Listening(s.kiwi)
    ensures Inv(Configure(s, setUp, now).system) && Listening(Configure(s, setUp, now).system.kiwi)
  {
  }

  lemma {:induction false} ApplyAllInv(s: System, items: seq<Item>, now: nat)
    requires Inv(s) && Listening(s.kiwi)
    ensures Inv(ApplyAll(s, items, now).system)
    decreases |items|
  {
    if items != [] {
      NoteInv(s, items[0]);
      var noted := Note(s, items[0]);
      if noted.ok {
        ConfigureInv(noted.system, items[0].setUp, now);
        var first := Configure(noted.system, items[0].setUp, now);
        if first.ok {
          ApplyAllInv(first.system, items[1..], now);
        }
      }
    }
  }

  lemma PacketInv(s: System, sequence: nat, now: nat)
    requires Inv(s) && Listening(s.kiwi) && s.kiwi.configured && s.kiwi.rate != 0
    ensures var t := s.(kiwi := s.kiwi.(sequence := Some(sequence), received := now)); Inv(t) && Inv(Confirm(t))
  {
    var t := s.(kiwi := s.kiwi.(sequence := Some(sequence), received := now));
    assert Inv(t);
    ConfirmInv(t);
  }

  lemma ReceiveInv(s: System, m: Message, now: nat)
    requires Inv(s) && Listening(s.kiwi)
    ensures Inv(Receive(s, m, now).system)
  {
    if m.Setup? {
      ApplyAllInv(s, m.items, now);
    } else if m.Audio? && m.valid && s.kiwi.configured && s.kiwi.rate != 0 {
      PacketInv(s, m.sequence, now);
    }
  }

  lemma RetryInv(s: System, retry: nat, failures: nat)
    requires Inv(s)
    ensures Inv(s.(kiwi := s.kiwi.(retry := retry, failures := failures)))
  {
  }

  lemma LostInv(s: System)
    requires Inv(s) && !s.kiwi.redirecting
    ensures Inv(Unavailable(s.(kiwi := s.kiwi.(link := Down))))
  {
    UnavailableBooks(s.(kiwi := s.kiwi.(link := Down)));
  }

  lemma WaitingInv(s: System, now: nat)
    requires Inv(s)
    ensures Inv(Waiting(s, now))
  {
    RetryInv(s, Waiting(s, now).kiwi.retry, Waiting(s, now).kiwi.failures);
  }

  lemma HoppedInv(s: System, now: nat)
    requires Inv(s) && s.kiwi.redirecting
    ensures Inv(s.(kiwi := Hopped(s.kiwi.(link := Down), now)))
  {
  }

  lemma ClosedInv(s: System, now: nat)
    requires Inv(s) && s.kiwi.link.Up?
    ensures Inv(Closed(s, now))
  {
    if s.kiwi.redirecting {
      HoppedInv(s, now);
    } else {
      LostInv(s);
      WaitingInv(Unavailable(s.(kiwi := s.kiwi.(link := Down))), now);
    }
  }

  lemma NetworkInv(s: System, e: Event, now: nat)
    requires Inv(s)
    ensures Inv(Network(s, e, now))
  {
    var k := s.kiwi;
    if k.link.Up? {
      match e
      case WsOpen(password, sent) =>
        if !k.link.websocket && !k.link.closing {
          FailInv(s.(kiwi := k.(link := k.link.(websocket := true))));
        }
      case WsMessage(m) =>
        if k.link.websocket && !k.failed {
          ReceiveInv(s, m, now);
          FailInv(Receive(s, m, now).system);
        }
      case Read(location, tooLong) => BrokenInv(s, e, now);
      case Error(location) => BrokenInv(s, e, now);
      case Close => ClosedInv(s, now);
    }
  }

  lemma BrokenInv(s: System, e: Event, now: nat)
    requires Inv(s) && (e.Read? || e.Error?)
    ensures Inv(Network(s, e, now))
  {
    if s.kiwi.link.Up? {
      if Redirects(s.kiwi, e.location) {
        RedirectInv(s, e.location);
      } else {
        FailInv(s);
        FailInv(s.(kiwi := s.kiwi.(link := Closing(s.kiwi.link))));
      }
    }
  }

  lemma RedirectInv(s: System, location: bool)
    requires Inv(s) && s.kiwi.link.Up? && Redirects(s.kiwi, location)
    ensures Inv(s.(kiwi := Redirect(s.kiwi)))
  {
  }

  lemma PollStartInv(s: System, now: nat, agent: bool, connects: bool)
    requires Inv(s)
    ensures Inv(PollStart(s, now, agent, connects))
  {
    var k := s.kiwi;
    if k.link.Down? && now >= k.retry && k.attempts < ATTEMPTS && !agent {
      FailInv(s.(kiwi := Renewed(k)));
    }
  }

  lemma NumberedNext(orders: seq<Order>, o: Order)
    ensures Numbered(orders + [o]) == Numbered(orders) + if o.request != 0 then [o] else []
    ensures HasZero(orders + [o]) <==> HasZero(orders) || o.request == 0
  {
    assert (orders + [o])[..|orders|] == orders;
    if HasZero(orders) {
      var i :| 0 <= i < |orders| && orders[i].request == 0;
      assert (orders + [o])[i].request == 0;
    }
    assert (orders + [o])[|orders|] == o;
  }

  /** The host has taken an order and not yet passed it on. */
  ghost predicate Taken(s: System, o: Order) {
    var orders := Numbered(s.host.orders);
    && s.kiwi.request == 0 && o.request != 0 && s.host.pending == o.request
    && Ledger(s.host, orders) && (s.host.mismatched <==> HasZero(s.host.orders))
    && orders[|orders| - 1] == o
    && Linked(s.kiwi) && Session(s.kiwi) && Budget(s.kiwi) && Tuned(s.kiwi)
  }

  lemma TakenAtOnce(s: System, o: Order)
    requires Inv(s) && s.host.pending == 0 && o.request != 0
    ensures Taken(s.(host := s.host.(pending := o.request, orders := s.host.orders + [o])), o)
  {
    NumberedNext(s.host.orders, o);
  }

  lemma ZeroFaults(s: System, o: Order)
    requires Inv(s) && s.host.pending == 0 && o.request == 0
    ensures Inv(Complete(s.(host := s.host.(pending := 0, orders := s.host.orders + [o])), 0, false))
  {
    NumberedNext(s.host.orders, o);
    assert Numbered(s.host.orders) + [] == Numbered(s.host.orders);
  }

  lemma SettledInv(s: System, o: Order, success: bool)
    requires Taken(s, o) && (success ==> s.kiwi.now == o.tune)
    ensures Inv(Complete(s, o.request, success))
  {
    AnsweredBooks(s, success);
  }

  lemma PassedOnInv(s: System, o: Order)
    requires Taken(s, o) && s.kiwi.online
    ensures Inv(s.(kiwi := s.kiwi.(wanted := o.tune, told := TuneCommand(o.tune), request := o.request, deadline := o.at + TUNE_TIME)))
  {
  }

  lemma ObeyInv(s: System, c: Command, now: nat)
    requires Inv(s)
    ensures Inv(Obey(s, c, now))
  {
    if !s.host.failed && c.Set? && s.host.pending == 0 {
      var o := Order(c.request, c.tune, now);
      var t := s.(host := s.host.(pending := c.request, orders := s.host.orders + [o]));
      if c.request == 0 {
        ZeroFaults(s, o);
      } else {
        TakenAtOnce(s, o);
        TakenInv(t, o, c, now);
      }
    }
  }

  /** An order is answered at once or passed on to the radio. */
  lemma TakenInv(s: System, o: Order, c: Command, now: nat)
    requires c.Set? && o == Order(c.request, c.tune, now) && Taken(s, o)
    ensures c.tune.hz > s.host.rxMax || !c.listed ==> Inv(Complete(s, c.request, false))
    ensures var r := SetReceiver(s, c.request, c.tune, c.sent, now);
            Inv(if r.ok then r.system else Complete(r.system, c.request, false))
  {
    SettledInv(s, o, false);
    if s.kiwi.online {
      PassedOnInv(s, o);
      if c.tune == s.kiwi.now {
        SettledInv(s, o, true);
      }
    }
  }

  lemma NextInv(s: System, i: Input)
    requires Inv(s)
    ensures Inv(Next(s, i))
  {
    match i.action
    case Commanded(c) => ObeyInv(s, c, i.at);
    case Started(agent, connects) => PollStartInv(s, i.at, agent, connects);
    case Happened(e) => NetworkInv(s, e, i.at);
    case Ended(fails) => PollEndInv(s, i.at, fails);
    case IpcFailed => FaultInv(s);
  }

  lemma PollEndInv(s: System, now: nat, fails: bool)
    requires Inv(s)
    ensures Inv(PollEnd(s, now, fails))
  {
    FailInv(s);
  }

  lemma FaultInv(s: System)
    requires Inv(s)
    ensures Inv(s.(host := s.host.(failed := true)))
  {
  }

  lemma {:induction false} RunInv(wanted: Tune, inputs: seq<Input>)
    ensures Inv(Run(wanted, inputs))
    decreases |inputs|
  {
    if inputs != [] {
      RunInv(wanted, inputs[..|inputs| - 1]);
      NextInv(Run(wanted, inputs[..|inputs| - 1]), inputs[|inputs| - 1]);
    }
  }

  // ---------------------------------------------------------------- the promises

  /** Every numbered order is answered exactly once, in order and under its own id, but for the pending one;
      a success reports the tune that was ordered. */
  lemma EveryOrderAnsweredOnce(wanted: Tune, inputs: seq<Input>)
    ensures var h := Run(wanted, inputs).host;
            && Answers(Numbered(h.orders), h.answers)
            && |Numbered(h.orders)| == |h.answers| + (if h.pending != 0 then 1 else 0)
  {
    RunInv(wanted, inputs);
  }

  /** The driver never completes a request that is not pending, unless the server has sent one without an id. */
  lemma MismatchIffZeroId(wanted: Tune, inputs: seq<Input>)
    ensures Run(wanted, inputs).host.mismatched <==> HasZero(Run(wanted, inputs).host.orders)
  {
    RunInv(wanted, inputs);
  }

  /** A pending request is with the driver, over an open connection to a receiver that is online. */
  lemma PendingMeansOnline(wanted: Tune, inputs: seq<Input>)
    ensures var s := Run(wanted, inputs);
            && s.host.pending == s.kiwi.request
            && (s.kiwi.request != 0 ==> s.kiwi.online && !s.kiwi.failed && s.kiwi.link.Up? && s.kiwi.link.websocket)
  {
    RunInv(wanted, inputs);
  }

  /** Failures stop after three attempts, and redirects after eight hops. */
  lemma OpensBounded(wanted: Tune, inputs: seq<Input>)
    ensures Run(wanted, inputs).kiwi.opens <= 11
  {
    RunInv(wanted, inputs);
  }

  lemma PollAnswers(s: System, now: nat, fails: bool)
    requires Inv(s)
    ensures var t := PollEnd(s, now, fails);
            t.host.pending != 0 ==> now < Numbered(t.host.orders)[|Numbered(t.host.orders)| - 1].at + TUNE_TIME
  {
    FailInv(s);
  }

  /** After the first poll that ends four seconds or more after an order was taken, the order has its answer. */
  lemma AnsweredInTime(wanted: Tune, inputs: seq<Input>, now: nat, fails: bool, i: nat)
    requires i < |Numbered(Run(wanted, inputs + [Input(Ended(fails), now)]).host.orders)|
    requires now >= Numbered(Run(wanted, inputs + [Input(Ended(fails), now)]).host.orders)[i].at + 4_000_000
    ensures i < |Run(wanted, inputs + [Input(Ended(fails), now)]).host.answers|
  {
    RunLast(wanted, inputs, Input(Ended(fails), now));
    RunInv(wanted, inputs);
    RunInv(wanted, inputs + [Input(Ended(fails), now)]);
    PollSettles(Run(wanted, inputs), now, fails, i);
  }

  lemma PollSettles(s: System, now: nat, fails: bool, i: nat)
    requires Inv(s) && Inv(PollEnd(s, now, fails)) && i < |Numbered(PollEnd(s, now, fails).host.orders)|
    requires now >= Numbered(PollEnd(s, now, fails).host.orders)[i].at + TUNE_TIME
    ensures i < |PollEnd(s, now, fails).host.answers|
  {
    PollAnswers(s, now, fails);
    LastIsDue(PollEnd(s, now, fails).host, now, i);
  }

  lemma LastIsDue(h: Host, now: nat, i: nat)
    requires Ledger(h, Numbered(h.orders)) && i < |Numbered(h.orders)| && now >= Numbered(h.orders)[i].at + TUNE_TIME
    requires h.pending != 0 ==> now < Numbered(h.orders)[|Numbered(h.orders)| - 1].at + TUNE_TIME
    ensures i < |h.answers|
  {
  }

  /** In every run the last tune command that went out over a live session is the one for the pending order, or else for
      the tune that the host was last told. */
  lemma RadioIsTold(wanted: Tune, inputs: seq<Input>)
    ensures var s := Run(wanted, inputs);
            var orders := Numbered(s.host.orders);
            && (s.host.pending != 0 ==> orders != [])
            && (s.kiwi.online ==>
                  s.kiwi.told == TuneCommand(if s.host.pending == 0 then s.kiwi.now else orders[|orders| - 1].tune))
  {
    RunInv(wanted, inputs);
  }

  // ---------------------------------------------------------------- what the radio is told

  predicate IsDigit(c: char) {
    '0' <= c <= '9'
  }

  /** The number that a decimal text stands for. */
  function Value(s: string): int {
    if s == "" then 0 else Value(s[..|s| - 1]) * 10 + (s[|s| - 1] as int - '0' as int)
  }

  lemma {:induction false} DigitsRead(n: nat)
    ensures Digits(n) != "" && Value(Digits(n)) == n && forall i :: 0 <= i < |Digits(n)| ==> IsDigit(Digits(n)[i])
  {
    if n >= 10 {
      DigitsRead(n / 10);
      var front := Digits(n / 10);
      assert Digits(n)[..|front|] == front;
    } else {
      assert Digits(n)[..0] == "" && Value("") == 0;
    }
  }

  lemma ValueMore(s: string, d: nat)
    requires d < 10
    ensures Digits(d) == [('0' as int + d) as char] && Value(s + Digits(d)) == Value(s) * 10 + d
  {
    assert (s + Digits(d))[..|s|] == s;
  }

  /** The frequency in the command has three decimals, and without its point it is the frequency in Hz. */
  lemma KilohertzReads(hz: nat)
    ensures var k := Kilohertz(hz);
            && |k| >= 5 && k[|k| - 4] == '.' && Value(k[..|k| - 4] + k[|k| - 3..]) == hz
            && forall i :: 0 <= i < |k| && i != |k| - 4 ==> IsDigit(k[i])
  {
    var m, a := hz % 1000, Digits(hz / 1000);
    DigitsRead(hz / 1000);
    ValueMore(a, m / 100);
    ValueMore(a + Digits(m / 100), m / 10 % 10);
    ValueMore(a + Digits(m / 100) + Digits(m / 10 % 10), m % 10);
    var k := Kilohertz(hz);
    assert k[..|k| - 4] == a;
    assert k[..|k| - 4] + k[|k| - 3..] == a + Digits(m / 100) + Digits(m / 10 % 10) + Digits(m % 10);
    ThreeDigits(m);
  }

  lemma ThreeDigits(m: nat)
    requires m < 1000
    ensures (m / 100 * 10 + m / 10 % 10) * 10 + m % 10 == m
  {
  }

  /** A word in any case. */
  predicate Spells(s: string, word: string) {
    |s| == |word| && forall i :: 0 <= i < |s| ==> s[i] == word[i] || s[i] as int + 32 == word[i] as int
  }

  lemma SpelledIsSame(s: string, word: string)
    requires forall i :: 0 <= i < |word| ==> 'a' <= word[i] <= 'z'
    ensures SameWord(s, word) <==> Spells(s, word)
  {
  }

  predicate Receivable(mode: string) {
    Spells(mode, "usb") || Spells(mode, "lsb") || Spells(mode, "am") || Spells(mode, "cw")
  }

  lemma ModesSpelled(k: Kiwi, t: Tune)
    ensures Tunable(k, t) <==> t.hz <= k.maxHz && Receivable(t.mode)
  {
    SpelledIsSame(t.mode, "usb");
    SpelledIsSame(t.mode, "lsb");
    SpelledIsSame(t.mode, "am");
    SpelledIsSame(t.mode, "cw");
  }

  /** The command for each mode, with its passband in Hz. */
  lemma CommandsPerMode(t: Tune)
    ensures Spells(t.mode, "usb") ==> TuneCommand(t) == "SET mod=usb low_cut=300 high_cut=2700 freq=" + Kilohertz(t.hz)
    ensures Spells(t.mode, "lsb") ==> TuneCommand(t) == "SET mod=lsb low_cut=-2700 high_cut=-300 freq=" + Kilohertz(t.hz)
    ensures Spells(t.mode, "am") ==> TuneCommand(t) == "SET mod=am low_cut=-4900 high_cut=4900 freq=" + Kilohertz(t.hz)
    ensures Spells(t.mode, "cw") ==> TuneCommand(t) == "SET mod=cw low_cut=300 high_cut=700 freq=" + Kilohertz(t.hz)
  {
    SpelledIsSame(t.mode, "usb");
    SpelledIsSame(t.mode, "lsb");
    SpelledIsSame(t.mode, "am");
    assert Spells(t.mode, "usb") ==> t.mode[0] in {'u', 'U'};
    assert Spells(t.mode, "lsb") ==> t.mode[0] in {'l', 'L'};
    assert Spells(t.mode, "am") ==> t.mode[0] in {'a', 'A'};
    assert Spells(t.mode, "cw") ==> t.mode[0] in {'c', 'C'};
  }

  // ---------------------------------------------------------------- what an order gets

  /** The answer to every order in every state that takes one: success at once if the radio is there already; to the radio
      if it can be tuned so and the command goes out, with four seconds to confirm; and failure at once in every other
      case, with nothing changed. */
  lemma OrderGets(s: System, id: nat, tune: Tune, listed: bool, sent: bool, at: nat)
    requires Inv(s) && !s.host.failed && s.host.pending == 0 && id != 0
    ensures var t, k := Obey(s, Set(id, tune, listed, sent), at), s.kiwi;
            var can := listed && tune.hz <= s.host.rxMax && k.online && tune.hz <= k.maxHz && Receivable(tune.mode);
            && !t.host.failed && t.host.orders == s.host.orders + [Order(id, tune, at)] && t.host.rxMax == s.host.rxMax
            && if can && tune == k.now then
                 t.host.answers == s.host.answers + [Answer(id, true, tune)] && t.host.pending == 0 && t.kiwi == k
               else if can && k.link == Up(true, false) && sent then
                 && t.host.answers == s.host.answers && t.host.pending == id
                 && t.kiwi == k.(wanted := tune, told := TuneCommand(tune), request := id, deadline := at + 4000000)
               else
                 t.host.answers == s.host.answers + [Answer(id, false, k.now)] && t.host.pending == 0 && t.kiwi == k
  {
    ModesSpelled(s.kiwi, tune);
  }

  /** A second order before the first is answered, and anything that is no order, is a fault of the server. */
  lemma ServerFaults(s: System, c: Command, at: nat)
    requires !s.host.failed
    ensures c.Unexpected? || (c.Set? && s.host.pending != 0) ==> Obey(s, c, at) == s.(host := s.host.(failed := true))
    ensures c.Harmless? ==> Obey(s, c, at) == s
  {
  }

  /** A sequence number ahead of the last one by less than half the 32-bit circle. */
  predicate Ahead(last: Option<nat>, sequence: nat) {
    last.None? || 0 < (sequence - last.value) % 0x1_0000_0000 < 0x8000_0000
  }

  /** The next valid, plain, whole and fresh packet with the new frequency answers the pending order with success and with
      the tune that was ordered; a bad packet answers it with failure and ends the session; any other leaves it pending. */
  lemma PacketAnswers(wanted: Tune, inputs: seq<Input>, valid: bool, compressed: bool, even: bool, sequence: nat,
                      newFrequency: bool, at: nat)
    requires Run(wanted, inputs).host.pending != 0
    ensures var s := Run(wanted, inputs);
            var packet := Audio(valid, compressed, even, sequence, newFrequency);
            var t := Run(wanted, inputs + [Input(Happened(WsMessage(packet)), at)]);
            var orders := Numbered(s.host.orders);
            && orders != []
            && var o := orders[|orders| - 1];
            && o.request == s.host.pending
            && if !valid || compressed || !even then
                 && t.host.answers == s.host.answers + [Answer(o.request, false, s.kiwi.now)] && t.host.pending == 0
                 && !t.kiwi.online && t.kiwi.failed && t.kiwi.link == Up(true, true)
               else if Ahead(s.kiwi.sequence, sequence) && newFrequency then
                 && t.host.answers == s.host.answers + [Answer(o.request, true, o.tune)] && t.host.pending == 0
                 && t.kiwi.now == o.tune && t.kiwi.online && t.host.rxMax == t.kiwi.maxHz
               else t.host == s.host
  {
    RunLast(wanted, inputs, Input(Happened(WsMessage(Audio(valid, compressed, even, sequence, newFrequency))), at));
    RunInv(wanted, inputs);
    if !valid || compressed || !even {
      BadPacket(Run(wanted, inputs), Audio(valid, compressed, even, sequence, newFrequency), at);
    } else {
      GoodPacket(Run(wanted, inputs), sequence, newFrequency, at);
    }
  }

  lemma BadPacket(s: System, m: Message, at: nat)
    requires Inv(s) && s.host.pending != 0 && m.Audio? && (!m.valid || m.compressed || !m.even)
    ensures var t := Network(s, WsMessage(m), at);
            && t.host.answers == s.host.answers + [Answer(s.host.pending, false, s.kiwi.now)] && t.host.pending == 0
            && !t.kiwi.online && t.kiwi.failed && t.kiwi.link == Up(true, true)
  {
  }

  lemma GoodPacket(s: System, sequence: nat, newFrequency: bool, at: nat)
    requires Inv(s) && s.host.pending != 0
    ensures var t := Network(s, WsMessage(Audio(true, false, true, sequence, newFrequency)), at);
            if Ahead(s.kiwi.sequence, sequence) && newFrequency then
              && t.host.answers == s.host.answers + [Answer(s.host.pending, true, s.kiwi.wanted)] && t.host.pending == 0
              && t.kiwi.now == s.kiwi.wanted && t.kiwi.online && t.host.rxMax == t.kiwi.maxHz
            else t.host == s.host
  {
  }

  // ---------------------------------------------------------------- how a session begins and ends

  lemma RunLast(wanted: Tune, inputs: seq<Input>, last: Input)
    ensures Run(wanted, inputs + [last]) == Next(Run(wanted, inputs), last)
  {
    assert (inputs + [last])[..|inputs|] == inputs;
  }

  /** From a standstill to the first tune: a connection that opens, a receiver that lets the driver in, tells its bandwidth
      and sample rate and takes the setup, and a first packet at the frequency; then the radio is available, tuned to what
      was wanted. */
  lemma ComesOnline(wanted: Tune, bandwidth: nat, rate: nat, sequence: nat, items: seq<Item>, times: seq<nat>)
    requires |times| == 4 && 0 < bandwidth <= 1000000000 && 8000 <= rate <= 48000
    requires Receivable(wanted.mode) && wanted.hz <= bandwidth && wanted.hz <= 30000000
    requires |items| == 3 && items[0].parameter == BadPassword(false) && items[1].parameter == Bandwidth(Some(bandwidth))
    requires items[2].parameter == SampleRate(Some(rate)) && items[2].setUp
    ensures var s := Run(wanted, [] + [Input(Started(true, true), times[0])] + [Input(Happened(WsOpen(true, true)), times[1])]
                                 + [Input(Happened(WsMessage(Setup(items))), times[2])]
                                 + [Input(Happened(WsMessage(Audio(true, false, true, sequence, true))), times[3])]);
            && s.kiwi.online && !s.kiwi.failed && s.kiwi.now == wanted && s.kiwi.told == TuneCommand(wanted)
            && s.host == Host(false, false, 0, if bandwidth < 30000000 then bandwidth else 30000000, [], [])
  {
    var start, open := Input(Started(true, true), times[0]), Input(Happened(WsOpen(true, true)), times[1]);
    var setup := Input(Happened(WsMessage(Setup(items))), times[2]);
    RunLast(wanted, [], start);
    RunLast(wanted, [] + [start], open);
    RunLast(wanted, [] + [start] + [open], setup);
    RunLast(wanted, [] + [start] + [open] + [setup],
            Input(Happened(WsMessage(Audio(true, false, true, sequence, true))), times[3]));
    var s := Dials(wanted, times[0], times[1]);
    ModesSpelled(s.kiwi.(maxHz := if bandwidth < KIWI_MAX_HZ then bandwidth else KIWI_MAX_HZ), wanted);
    SetsUp(s, items, bandwidth, rate, times[2]);
    FirstPacket(Network(s, WsMessage(Setup(items)), times[2]), sequence, times[3]);
  }

  lemma Dials(wanted: Tune, t0: nat, t1: nat) returns (s: System)
    ensures s == Network(PollStart(Initial(wanted), t0, true, true), WsOpen(true, true), t1)
    ensures s == Initial(wanted).(kiwi := Initial(wanted).kiwi.(attempts := 1, link := Up(true, false), opens := 1,
                                                                deadline := t0 + CONNECT_TIME, received := t0))
  {
    s := Network(PollStart(Initial(wanted), t0, true, true), WsOpen(true, true), t1);
  }

  lemma FirstPacket(s: System, sequence: nat, now: nat)
    requires s.kiwi.link == Up(true, false) && s.kiwi.configured && s.kiwi.rate != 0 && !s.kiwi.online && !s.kiwi.failed
    requires s.kiwi.request == 0 && s.kiwi.sequence.None?
    ensures Network(s, WsMessage(Audio(true, false, true, sequence, true)), now)
         == System(s.host.(rxMax := s.kiwi.maxHz),
                   s.kiwi.(sequence := Some(sequence), received := now, now := s.kiwi.wanted, online := true, confirmed := true))
  {
  }

  lemma ApplyFirst(s: System, next: System, items: seq<Item>, now: nat)
    requires items != [] && Apply(s, items[0], now) == Step(next, true)
    ensures ApplyAll(s, items, now) == ApplyAll(next, items[1..], now)
  {
  }

  lemma SetsUp(s: System, items: seq<Item>, bandwidth: nat, rate: nat, now: nat)
    requires |items| == 3 && items[0].parameter == BadPassword(false) && items[1].parameter == Bandwidth(Some(bandwidth))
    requires items[2].parameter == SampleRate(Some(rate)) && items[2].setUp
    requires 0 < bandwidth <= 1000000000 && 8000 <= rate <= 48000 && s.kiwi.rate == 0 && !s.kiwi.configured && !s.kiwi.failed
    requires s.kiwi.link == Up(true, false)
    requires Tunable(s.kiwi.(maxHz := if bandwidth < KIWI_MAX_HZ then bandwidth else KIWI_MAX_HZ), s.kiwi.wanted)
    ensures Network(s, WsMessage(Setup(items)), now)
         == s.(kiwi := s.kiwi.(authenticated := true, configured := true, rate := rate, told := TuneCommand(s.kiwi.wanted),
                               maxHz := if bandwidth < KIWI_MAX_HZ then bandwidth else KIWI_MAX_HZ,
                               deadline := now + CONFIGURE_TIME))
  {
    var one := s.(kiwi := s.kiwi.(authenticated := true));
    var two := one.(kiwi := one.kiwi.(maxHz := if bandwidth < KIWI_MAX_HZ then bandwidth else KIWI_MAX_HZ));
    var three := two.(kiwi := two.kiwi.(rate := rate));
    assert items[1..][0] == items[1] && items[1..][1..] == items[2..] && items[2..][0] == items[2] && items[2..][1..] == [];
    ApplyFirst(s, one, items, now);
    ApplyFirst(one, two, items[1..], now);
    ApplyFirst(two, Configure(three, true, now).system, items[2..], now);
  }

  /** How a session looks to the host and on the wire once it has ended: offline, closing, and a pending order failed. */
  predicate HasEnded(s: System, t: System) {
    && t.kiwi.failed && !t.kiwi.online && t.kiwi.request == 0 && (s.kiwi.link.Up? ==> t.kiwi.link == s.kiwi.link.(closing := true))
    && t.host.pending == 0
    && t.host.answers == s.host.answers + if s.host.pending == 0 then [] else [Answer(s.host.pending, false, s.kiwi.now)]
  }

  lemma FailEnds(s: System)
    requires Books(s) && !s.kiwi.failed
    ensures HasEnded(s, Fail(s))
  {
  }

  /** A receiver that is disabled, rejects the password, is full or converts frequencies ends the session, and so does a
      bandwidth or rate that makes no sense. */
  lemma RefusalsEnd(s: System, items: seq<Item>, now: nat)
    requires Inv(s) && s.kiwi.link.Up? && s.kiwi.link.websocket && !s.kiwi.failed && items != []
    requires match items[0].parameter
             case LoadConfig(disabled) => disabled
             case BadPassword(rejected) => rejected
             case Refusal => true
             case Bandwidth(hz) => hz.None? || hz.value == 0 || hz.value > 1000000000
             case SampleRate(hz) => hz.None? || hz.value < 8000 || hz.value > 48000 || s.kiwi.rate !in {0, hz.value}
             case AudioRate(valid) => !valid || !items[0].replied || s.kiwi.link.closing
             case FrequencyOffset(nonzero) => nonzero
             case OtherParameter => false
    ensures HasEnded(s, Network(s, WsMessage(Setup(items)), now))
  {
    FailEnds(s);
  }

  /** A session that is late with its first packet or silent for ten seconds ends at the next poll, and so does one whose
      keepalive does not go out; any other goes on. */
  lemma PollEnds(s: System, now: nat, keepaliveFails: bool)
    requires Inv(s) && s.kiwi.link.Up? && !s.kiwi.failed
    ensures var k, t := s.kiwi, PollEnd(s, now, keepaliveFails);
            if (!k.online && now >= k.deadline) || (k.request != 0 && now >= k.deadline) || now > k.received + 10000000
               || (k.link.websocket && keepaliveFails)
            then HasEnded(s, t) else t == s
  {
    FailEnds(s);
  }

  /** A connection is tried when it is due, up to three times, and has ten seconds to get somewhere. */
  lemma DialsWhenDue(s: System, now: nat, connects: bool)
    ensures var k, t := s.kiwi, PollStart(s, now, true, connects);
            if k.link.Up? || now < k.retry || k.attempts >= 3 then t == s
            else
              && t.host == s.host && t.kiwi.attempts == k.attempts + 1 && t.kiwi.opens == k.opens + 1
              && t.kiwi.deadline == now + 10000000 && t.kiwi.received == now && !t.kiwi.failed && !t.kiwi.online
              && (connects ==> t.kiwi.link == Up(false, false))
              && (!connects ==> t.kiwi.link == Down && t.kiwi.retry == now + 1000000)
  {
  }

  /** A lost connection fails the pending order and waits for 1, 2, 4, up to 64 seconds; after three attempts for ever. */
  lemma LossWaits(s: System, now: nat)
    requires Inv(s) && s.kiwi.link.Up? && !s.kiwi.redirecting
    ensures var k, t := s.kiwi, Network(s, Close, now);
            && t.kiwi.link == Down && !t.kiwi.online && t.host.pending == 0
            && t.host.answers == s.host.answers + (if s.host.pending == 0 then [] else [Answer(s.host.pending, false, k.now)])
            && t.kiwi.retry == if k.attempts >= 3 then 0xffff_ffff_ffff_ffff
                               else now + 1000000 * [1, 2, 4, 8, 16, 32, 64][if k.failures < 6 then k.failures else 6]
  {
    BackoffDoubles();
  }

  /** A usable redirect before the websocket closes the connection, and when it is gone the next one is due at once and
      is no further attempt; the host is told nothing. */
  lemma RedirectFollowed(s: System, tooLong: bool, now: nat, later: nat)
    requires Inv(s) && s.kiwi.link == Up(false, false) && s.kiwi.redirects < 8
    ensures var r := Network(s, Read(true, tooLong), now);
            var c := Network(r, Close, later);
            && r.kiwi.link == Up(false, true) && c.host == s.host && c.kiwi.link == Down && c.kiwi.retry == later
            && c.kiwi.attempts == s.kiwi.attempts - 1 && c.kiwi.redirects == s.kiwi.redirects + 1
  {
  }

  lemma BackoffDoubles()
    ensures forall n :: 0 <= n <= 6 ==> Backoff(n) == [1, 2, 4, 8, 16, 32, 64][n]
  {
    assert Backoff(0) == 1 && Backoff(1) == 2 && Backoff(2) == 4 && Backoff(3) == 8;
    assert Backoff(4) == 16 && Backoff(5) == 32 && Backoff(6) == 64;
  }

  // ---------------------------------------------------------------- the two objects

  class BridgeHost {
    var failed: bool
    var mismatched: bool
    var pending: nat
    var rxMax: nat
    var orders: seq<Order>
    var answers: seq<Answer>

    ghost function Now(): Host
      reads this
    {
      Host(failed, mismatched, pending, rxMax, orders, answers)
    }

    constructor ()
      ensures Now() == Host(false, false, 0, KIWI_MAX_HZ, [], [])
    {
      failed, mismatched, pending, rxMax, orders, answers := false, false, 0, KIWI_MAX_HZ, [], [];
    }

    /** The driver reports the outcome of a request; tune is what the radio is set to. */
    method Completed(request: nat, success: bool, tune: Tune)
      modifies this
      ensures Now() == if request == 0 || request != old(pending) then old(Now()).(failed := true, mismatched := true)
                       else old(Now()).(pending := 0, answers := old(answers) + [Answer(request, success, tune)])
    {
      if request == 0 || request != pending {
        failed, mismatched := true, true;
        return;
      }
      pending := 0;
      answers := answers + [Answer(request, success, tune)];
    }

    method RadioAvailable(maxHz: nat)
      modifies this
      ensures Now() == old(Now()).(rxMax := maxHz)
    {
      rxMax := maxHz;
    }
  }

  class Receiver {
    const host: BridgeHost
    var link: Link
    var authenticated: bool
    var configured: bool
    var online: bool
    var confirmed: bool
    var failed: bool
    var redirecting: bool
    var rate: nat
    var failures: nat
    var attempts: nat
    var redirects: nat
    var maxHz: nat
    var tune: Tune
    var wanted: Tune
    var told: string  // the last tune command that went out
    var request: nat
    var deadline: nat
    var retry: nat
    var received: nat
    var sequence: Option<nat>
    ghost var opens: nat
    ghost var followed: nat

    ghost function Now(): Kiwi
      reads this
    {
      Kiwi(link, authenticated, configured, online, confirmed, failed, redirecting, rate, failures, attempts, redirects,
           maxHz, tune, wanted, told, request, deadline, retry, received, sequence, opens, followed)
    }

    ghost function Both(): System
      reads this, host
    {
      System(host.Now(), Now())
    }

    constructor (host: BridgeHost, wanted: Tune)
      ensures this.host == host && Now() == Initial(wanted).kiwi
    {
      this.host, link := host, Down;
      authenticated, configured, online, confirmed, failed, redirecting := false, false, false, false, false, false;
      rate, failures, attempts, redirects, maxHz := 0, 0, 0, 0, KIWI_MAX_HZ;
      tune, this.wanted, told := Tune(14074000, "USB"), wanted, "";
      request, deadline, retry, received, sequence, opens, followed := 0, 0, 0, 0, None, 0, 0;
    }

    method GoOffline()
      modifies this, host
      ensures Both() == Unavailable(old(Both()))
    {
      var last := request;
      request := 0;
      if last != 0 {
        host.Completed(last, false, tune);
      }
      online := false;
      if confirmed {
        wanted := tune;
      }
    }

    method End()
      modifies this, host
      ensures Both() == Fail(old(Both()))
    {
      if failed {
        return;
      }
      failed := true;
      GoOffline();
      if link.Up? {
        link := link.(closing := true);
      }
    }

    method SetUp(sent: bool, now: nat) returns (ok: bool)
      modifies this
      ensures Step(Both(), ok) == Configure(old(Both()), sent, now)
    {
      if !authenticated || rate == 0 || configured {
        return true;
      }
      if !Reaches(wanted) || !Writable() || !sent {
        return false;
      }
      Ready(now);
      ok := true;
    }

    method Ready(now: nat)
      modifies this`configured, this`told, this`deadline
      ensures configured && told == TuneCommand(wanted) && deadline == now + CONFIGURE_TIME
    {
      configured, told := true, TuneCommand(wanted);
      deadline := now + CONFIGURE_TIME;
    }

    predicate Writable()
      reads this
      ensures Writable() == CanSend(Now())
    {
      link.Up? && link.websocket && !link.closing
    }

    predicate Reaches(t: Tune)
      reads this
      ensures Reaches(t) == Tunable(Now(), t)
    {
      && t.hz <= maxHz
      && (SameWord(t.mode, "usb") || SameWord(t.mode, "lsb") || SameWord(t.mode, "am") || SameWord(t.mode, "cw"))
    }

    method Learn(i: Item) returns (ok: bool)
      modifies this, host
      ensures Step(Both(), ok) == Note(old(Both()), i)
    {
      if Ending(i.parameter) {
        ok := Stop();
      } else {
        ok := LearnField(i);
      }
    }

    method LearnField(i: Item) returns (ok: bool)
      requires !Ending(i.parameter)
      modifies this`authenticated, this`maxHz, this`rate
      ensures var e := Learned(i, failed, Writable(), old(authenticated), old(maxHz), old(rate));
              && ok == e.Learns?
              && (ok ==> authenticated == e.authenticated && maxHz == e.maxHz && rate == e.rate)
              && (!ok ==> authenticated == old(authenticated) && maxHz == old(maxHz) && rate == old(rate))
    {
      match i.parameter
      case LoadConfig(disabled) => ok := !failed;
      case BadPassword(rejected) => authenticated, ok := true, true;
      case AudioRate(valid) => ok := valid && Writable() && i.replied;
      case Bandwidth(hz) => ok := LearnBandwidth(hz);
      case SampleRate(hz) => ok := LearnRate(hz);
      case FrequencyOffset(nonzero) => ok := true;
      case OtherParameter => ok := true;
    }

    method Stop() returns (ok: bool)
      modifies this, host
      ensures Both() == Fail(old(Both())) && !ok
    {
      End();
      ok := false;
    }

    method LearnBandwidth(hz: Option<nat>) returns (ok: bool)
      modifies this`maxHz
      ensures ok == (hz.Some? && hz.value != 0 && hz.value <= 1000000000)
      ensures maxHz == if ok then (if hz.value < KIWI_MAX_HZ then hz.value else KIWI_MAX_HZ) else old(maxHz)
    {
      ok := hz.Some? && hz.value != 0 && hz.value <= 1000000000;
      if ok {
        maxHz := if hz.value < KIWI_MAX_HZ then hz.value else KIWI_MAX_HZ;
      }
    }

    method LearnRate(hz: Option<nat>) returns (ok: bool)
      modifies this`rate
      ensures ok == (hz.Some? && 8000 <= hz.value <= 48000 && (old(rate) == 0 || old(rate) == hz.value))
      ensures rate == if ok then hz.value else old(rate)
    {
      ok := hz.Some? && 8000 <= hz.value <= 48000 && (rate == 0 || rate == hz.value);
      if ok {
        rate := hz.value;
      }
    }

    method ReadSetup(items: seq<Item>, now: nat) returns (ok: bool)
      modifies this, host
      ensures Step(Both(), ok) == ApplyAll(old(Both()), items, now)
    {
      var i := 0;
      ok := true;
      assert items[0..] == items;
      while ok && i < |items|
        invariant i <= |items|
        invariant ok ==> ApplyAll(Both(), items[i..], now) == ApplyAll(old(Both()), items, now)
        invariant !ok ==> Step(Both(), false) == ApplyAll(old(Both()), items, now)
        decreases |items| - i, ok
      {
        assert items[i..][1..] == items[i + 1..];
        ok := Learn(items[i]);
        if ok {
          ok := SetUp(items[i].setUp, now);
        }
        i := i + 1;
      }
    }

    method Confirmed()
      modifies this, host
      ensures Both() == Confirm(old(Both()))
    {
      Settle();
      if request != 0 {
        host.Completed(request, true, tune);
      }
      request := 0;
    }

    method Settle()
      modifies this, host
      ensures Both() == Available(old(Both()).(kiwi := old(Now()).(now := old(wanted), online := true, confirmed := true)))
    {
      tune := wanted;
      online, confirmed := true, true;
      host.RadioAvailable(maxHz);
    }

    method ReceiveFrame(m: Message, now: nat) returns (ok: bool)
      modifies this, host
      ensures Step(Both(), ok) == Receive(old(Both()), m, now)
    {
      match m
      case Malformed => ok := false;
      case Telemetry => ok := true;
      case Setup(items) => ok := ReadSetup(items, now);
      case Audio(valid, compressed, even, number, newFrequency) =>
        if !valid || !configured || rate == 0 {
          return false;
        }
        if compressed {
          return !online;
        }
        if !even {
          return false;
        }
        if Stale(sequence, number) {
          return true;
        }
        sequence, received := Some(number), now;
        if (!online || request != 0) && newFrequency {
          Confirmed();
        }
        ok := true;
    }

    method FollowRedirect()
      modifies this
      requires link.Up?
      ensures Now() == Redirect(old(Now()))
    {
      redirects := redirects + 1;
      redirecting := true;
      link := link.(closing := true);
    }

    method ConnectionClosed(now: nat)
      requires link.Up?
      modifies this, host
      ensures Both() == Closed(old(Both()), now)
    {
      link := Down;
      if redirecting {
        Hop(now);
      } else {
        GoOffline();
        BackOff(now);
      }
    }

    method Hop(now: nat)
      modifies this
      ensures Now() == Hopped(old(Now()), now)
    {
      redirecting, retry := false, now;
      attempts := if attempts > 0 then attempts - 1 else 0;
      followed := followed + 1;
    }

    method BackOff(now: nat)
      modifies this
      ensures Both() == Waiting(old(Both()), now)
    {
      if attempts >= ATTEMPTS {
        retry := NEVER;
        return;
      }
      retry := now + Backoff(if failures < 6 then failures else 6) * SECOND;
      failures := if failures < 6 then failures + 1 else failures;
    }

    /** The websocket is open; the driver sends its greeting. */
    method Greeted(password: bool, sent: bool, now: nat)
      modifies this, host
      requires link.Up?
      ensures Both() == Network(old(Both()), WsOpen(password, sent), now)
    {
      if !link.websocket && !link.closing {
        link := link.(websocket := true);
        if !password || !sent {
          End();
        }
      }
    }

    method Broken(location: bool, now: nat)
      modifies this, host
      requires link.Up?
      ensures Both() == Network(old(Both()), Error(location), now)
    {
      link := link.(closing := true);
      if !redirecting && !link.websocket && location && redirects < REDIRECTS {
        FollowRedirect();
      } else if !redirecting {
        End();
      }
    }

    method OnEvent(e: Event, now: nat)
      modifies this, host
      ensures Both() == Network(old(Both()), e, now)
    {
      if link.Down? {
        return;
      }
      match e
      case WsOpen(password, sent) => Greeted(password, sent, now);
      case WsMessage(m) =>
        if link.websocket && !failed {
          var ok := ReceiveFrame(m, now);
          if !ok {
            End();
          }
        }
      case Read(location, tooLong) =>
        if !redirecting && !link.websocket && location && redirects < REDIRECTS {
          FollowRedirect();
        } else if tooLong {
          End();
        }
      case Error(location) => Broken(location, now);
      case Close => ConnectionClosed(now);
    }

    method PollConnect(now: nat, agent: bool, connects: bool)
      modifies this, host
      ensures Both() == PollStart(old(Both()), now, agent, connects)
    {
      if link.Down? && now >= retry && attempts < ATTEMPTS {
        Renew();
        if agent {
          Dial(now, connects);
        } else {
          End();
        }
      }
    }

    method Renew()
      modifies this
      ensures Now() == Renewed(old(Now()))
    {
      attempts := attempts + 1;
      Forget();
      online, failed := false, false;
    }

    method Forget()
      modifies this
      ensures Now() == Forgotten(old(Now()))
    {
      authenticated, configured := false, false;
      sequence, rate := None, 0;
    }

    method Dial(now: nat, connects: bool)
      modifies this
      ensures Now() == Dialled(old(Now()), now, connects)
    {
      link, opens := if connects then Up(false, false) else Down, opens + 1;
      Arm(now);
      retry := if link.Down? then now + SECOND else retry;
    }

    method Arm(now: nat)
      modifies this
      ensures Now() == old(Now()).(deadline := now + CONNECT_TIME, received := now)
    {
      deadline, received := now + CONNECT_TIME, now;
    }

    method PollWatch(now: nat, keepaliveFails: bool)
      modifies this, host
      ensures Both() == PollEnd(old(Both()), now, keepaliveFails)
    {
      if link.Down? {
        return;
      }
      if (!online && now >= deadline) || (request != 0 && now >= deadline) || now - received > SILENCE {
        End();
        return;
      }
      if link.websocket && keepaliveFails {
        End();
      }
    }

    method Retune(request: nat, tune: Tune, sent: bool, now: nat) returns (ok: bool)
      modifies this, host
      ensures Step(Both(), ok) == SetReceiver(old(Both()), request, tune, sent, now)
    {
      if !online || this.request != 0 || request == 0 {
        return false;
      }
      if !Reaches(tune) {
        return false;
      }
      if tune == this.tune {
        host.Completed(request, true, tune);
        return true;
      }
      if !Writable() || !sent {
        return false;
      }
      Ask(request, tune, now);
      ok := true;
    }

    method Ask(request: nat, tune: Tune, now: nat)
      modifies this
      ensures Now() == old(Now()).(wanted := tune, told := TuneCommand(tune), request := request, deadline := now + TUNE_TIME)
    {
      wanted, told := tune, TuneCommand(tune);
      Await(request, now);
    }

    method Await(request: nat, now: nat)
      modifies this`request, this`deadline
      ensures Now() == old(Now()).(request := request, deadline := now + TUNE_TIME)
    {
      this.request, deadline := request, now + TUNE_TIME;
    }
  }

  /** One round of the host's command loop. */
  method Serve(r: Receiver, c: Command, now: nat)
    modifies r, r.host
    ensures r.Both() == Obey(old(r.Both()), c, now)
  {
    var host := r.host;
    if host.failed || c.Harmless? {
      return;
    }
    if c.Unexpected? || host.pending != 0 {
      host.failed := true;
      return;
    }
    host.pending := c.request;
    host.orders := host.orders + [Order(c.request, c.tune, now)];
    if c.tune.hz > host.rxMax || !c.listed {
      host.Completed(c.request, false, r.tune);
      return;
    }
    var ok := r.Retune(c.request, c.tune, c.sent, now);
    if !ok {
      host.Completed(c.request, false, r.tune);
    }
  }
}
