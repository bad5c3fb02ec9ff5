/** Capability negotiation and SASL on one connection, from a reset of its state on: what may be said to the
    server, in which order, and which silences of the server the timer ends. */
module CapNegotiation {

  import opened SaslPayload

  const TIMEOUT: nat := 30000
  const NAME_MAX: nat := 1024
  const REQUESTS: nat := 63

  datatype Line = CapReq(names: string) | CapEnd | Mechanism(external: bool) | Chunk(text: seq<Byte>) | Abort

  datatype Command = Ls | List | New | Del | Ack | Nak | Unknown

  /** One word of a capability list, with its dash, name and value taken apart. */
  datatype Token = Token(remove: bool, name: string, value: string)

  datatype Event =
    | Authenticate(plus: bool)
    | Success
    | Failure
    | NoSuchCommand
    | Cap(command: Command, more: bool, tokens: seq<Token>)
    | Poll

  datatype State = State(
    negotiating: bool, wait: bool, answered: bool, requested: bool, deadline: nat,
    listing: bool, listingEnabled: bool,
    capabilities: map<string, string>, enabled: map<string, string>, requests: string)

  datatype Out = Out(state: State, lines: seq<Line>)

  const FRESH := State(true, false, false, false, 0, false, false, map[], map[], "")

  // ---------------------------------------------------------------- the capability lists

  function Lower(c: char): char {
    if 'A' <= c <= 'Z' then (c as int + 32) as char else c
  }

  predicate SameWord(s: string, lower: string) {
    |s| == |lower| && forall i :: 0 <= i < |s| ==> Lower(s[i]) == lower[i]
  }

  predicate Contains(s: string, word: string) {
    exists i :: 0 <= i <= |s| && word <= s[i..]
  }

  function Clip(s: string): string {
    if |s| <= REQUESTS then s else s[..REQUESTS]
  }

  /** The request line with one more name, in its fixed buffer. */
  function Request(requests: string, name: string): string {
    if Contains(requests, name) then requests
    else Clip((if requests == "" then "" else Clip(requests + " ")) + name)
  }

  predicate SameTalk(s: State, t: State) {
    t.negotiating == s.negotiating && t.wait == s.wait && t.answered == s.answered
  }

  /** The timer either goes on or is started afresh, and it is whenever SASL is first found. */
  predicate SameTimer(s: State, t: State, now: nat) {
    && (t.deadline == s.deadline || (t.requested && t.deadline == now + TIMEOUT))
    && (s.requested ==> t.requested)
    && (t.requested && !s.requested ==> t.deadline == now + TIMEOUT)
  }

  function Offered(caps: map<string, string>, command: Command, t: Token): map<string, string> {
    if command == Ls || command == New then
      if t.remove then caps - {t.name} else caps[t.name := t.value]
    else if command == Del then caps - {t.name}
    else caps
  }

  function Enabled(enabled: map<string, string>, command: Command, t: Token): map<string, string> {
    if command == Del || command == Nak then enabled - {t.name}
    else if command == Ack || command == List then
      if t.remove then enabled - {t.name} else enabled[t.name := t.value]
    else enabled
  }

  function Requests(requests: string, command: Command, t: Token, configured: bool): string {
    if command == Ls && !t.remove
       && (SameWord(t.name, "rustyrig") || SameWord(t.name, "multi-prefix") || (t.name == "sasl" && configured))
    then Request(requests, t.name) else requests
  }

  function ApplyToken(s: State, command: Command, t: Token, configured: bool, now: nat): (r: State)
    ensures SameTalk(s, r) && SameTimer(s, r, now)
  {
    if t.name == "" || |t.name| > NAME_MAX then s
    else
      var sasl := t.name == "sasl" && configured && command == Ls;
      State(s.negotiating, s.wait, s.answered, s.requested || sasl, if sasl then now + TIMEOUT else s.deadline,
            s.listing, s.listingEnabled, Offered(s.capabilities, command, t), Enabled(s.enabled, command, t),
            Requests(s.requests, command, t, configured))
  }

  /** Reading a list changes neither the negotiation nor the authentication, but may start the timer. */
  function ApplyTokens(s: State, command: Command, tokens: seq<Token>, configured: bool, now: nat): (r: State)
    ensures SameTalk(s, r) && SameTimer(s, r, now)
    decreases |tokens|
  {
    if tokens == [] then s
    else ApplyTokens(ApplyToken(s, command, tokens[0], configured, now), command, tokens[1..], configured, now)
  }

  /** A list may come in several messages; its first one replaces the old list. */
  function BeginList(s: State, command: Command, more: bool): (r: State)
    ensures SameTalk(s, r) && SameTimer(s, r, 0) && r.deadline == s.deadline && r.requested == s.requested
  {
    if command == Ls then
      if s.listing then s.(listing := more) else s.(listing := more, capabilities := map[], requests := "")
    else if command == List then
      if s.listingEnabled then s.(listingEnabled := more) else s.(listingEnabled := more, enabled := map[])
    else s
  }

  // ---------------------------------------------------------------- the negotiation

  predicate Configured(c: Credentials) {
    c.user != [] || c.external
  }

  function Finish(s: State): Out {
    Out(s.(wait := false, deadline := 0, negotiating := false), if s.negotiating then [CapEnd] else [])
  }

  function After(lines: seq<Line>, o: Out): Out {
    Out(o.state, lines + o.lines)
  }

  function Marked(texts: seq<seq<Byte>>): (r: seq<Line>)
    ensures |r| == |texts| && forall i :: 0 <= i < |r| ==> r[i] == Chunk(texts[i])
  {
    seq(|texts|, i requires 0 <= i < |texts| => Chunk(texts[i]))
  }

  function Spoken(c: Credentials): (r: seq<Line>)
    ensures forall i :: 0 <= i < |r| ==> r[i].Chunk?
  {
    Marked(Payload(c))
  }

  /** Lines as far as the connection takes them: the first one that fails is the last one tried. */
  function Attempted(lines: seq<Line>, good: nat): seq<Line> {
    if good < |lines| then lines[..good + 1] else lines
  }

  function Decide(s: State, c: Credentials, command: Command, more: bool, now: nat, good: nat): Out {
    if !s.negotiating then Out(s, [])
    else if command == Ls && !more then
      if s.requests != "" then Out(s, [CapReq(s.requests)]) else Out(s.(negotiating := false), [CapEnd])
    else if command == Ack || command == Nak then
      if command == Ack && s.requested && "sasl" !in s.enabled then Out(s, [])
      else if s.wait then Out(s, [])
      else if command == Ack && Configured(c) && "sasl" in s.enabled then
        if good > 0 then Out(s.(wait := true, deadline := now + TIMEOUT), [Mechanism(c.external)])
        else After([Mechanism(c.external)], Finish(s))
      else Finish(s)
    else Out(s, [])
  }

  /** One message or timer tick at a time; good is how many lines the connection takes before one fails. */
  function Step(s: State, c: Credentials, e: Event, now: nat, good: nat): Out {
    match e
    case Authenticate(plus) =>
      if !s.wait then Out(s, [])
      else if s.answered || !plus then After([Abort], Finish(s))
      else if good < |Spoken(c)| then After(Attempted(Spoken(c), good) + [Abort], Finish(s))
      else Out(s.(answered := true), Attempted(Spoken(c), good))
    case Success => if s.wait then Finish(s) else Out(s, [])
    case Failure => if s.wait then Finish(s) else Out(s, [])
    case NoSuchCommand => Out(s.(negotiating := false), [])
    case Cap(command, more, tokens) =>
      Decide(Listed(s, c, command, more, tokens, now), c, command, more, now, good)
    case Poll =>
      if s.deadline > 0 && now >= s.deadline then After(if s.wait then [Abort] else [], Finish(s)) else Out(s, [])
  }

  function Listed(s: State, c: Credentials, command: Command, more: bool, tokens: seq<Token>, now: nat): (r: State)
    ensures SameTalk(s, r) && SameTimer(s, r, now)
  {
    ApplyTokens(BeginList(s, command, more), command, tokens, Configured(c), now)
  }

  datatype Input = Input(event: Event, now: nat, good: nat)

  function Run(c: Credentials, inputs: seq<Input>): Out
    decreases |inputs|
  {
    if inputs == [] then Out(FRESH, [])
    else
      var before := Run(c, inputs[..|inputs| - 1]);
      var last := inputs[|inputs| - 1];
      After(before.lines, Step(before.state, c, last.event, last.now, last.good))
  }

  // ---------------------------------------------------------------- what is said over a whole run

  /** The part of the conversation that is about authentication. */
  function Secrets(lines: seq<Line>): seq<Line> {
    if lines == [] then []
    else
      var last := lines[|lines| - 1];
      Secrets(lines[..|lines| - 1]) + if last.CapReq? || last.CapEnd? then [] else [last]
  }

  function Ends(lines: seq<Line>): nat {
    if lines == [] then 0 else Ends(lines[..|lines| - 1]) + if lines[|lines| - 1].CapEnd? then 1 else 0
  }

  /** A finished authentication: nothing, or the mechanism and nothing or all of the payload, or the mechanism
      and any part of the payload closed by an abort. */
  ghost predicate Closed(said: seq<Line>, c: Credentials) {
    || said == []
    || said == [Mechanism(c.external)]
    || said == [Mechanism(c.external)] + Spoken(c)
    || exists k :: 0 <= k <= |Spoken(c)| && said == Aborted(c, k)
  }

  function Aborted(c: Credentials, k: nat): seq<Line>
    requires k <= |Spoken(c)|
  {
    [Mechanism(c.external)] + Spoken(c)[..k] + [Abort]
  }

  /** What has been said fits the state: everything after the mechanism is exactly the payload or nothing. */
  ghost predicate Consistent(s: State, said: seq<Line>, c: Credentials) {
    if s.wait then said == [Mechanism(c.external)] + if s.answered then Spoken(c) else []
    else if s.negotiating then said == [] && !s.answered
    else Closed(said, c)
  }

  lemma {:induction false} SecretsJoin(a: seq<Line>, b: seq<Line>)
    ensures Secrets(a + b) == Secrets(a) + Secrets(b)
    ensures Ends(a + b) == Ends(a) + Ends(b)
  {
    if b == [] {
      assert a + b == a;
    } else {
      SecretsJoin(a, b[..|b| - 1]);
      assert (a + b)[..|a + b| - 1] == a + b[..|b| - 1];
    }
  }

  lemma {:induction false} AllSecret(lines: seq<Line>)
    requires forall i :: 0 <= i < |lines| ==> !lines[i].CapReq? && !lines[i].CapEnd?
    ensures Secrets(lines) == lines && Ends(lines) == 0
  {
    if lines != [] {
      AllSecret(lines[..|lines| - 1]);
      assert lines[..|lines| - 1] + [lines[|lines| - 1]] == lines;
    }
  }

  lemma OneLine(line: Line)
    ensures Secrets([line]) == (if line.CapReq? || line.CapEnd? then [] else [line])
    ensures Ends([line]) == if line.CapEnd? then 1 else 0
  {
    assert [line][..0] == [];
  }

  // ---------------------------------------------------------------- each step speaks in turn

  /** A handler's output, judged by the state before: what it says continues the conversation, and it releases
      the registration exactly when it ends the negotiation. */
  ghost predicate Speaks(s: State, said: seq<Line>, o: Out, c: Credentials, refused: bool) {
    && Consistent(o.state, said + Secrets(o.lines), c)
    && Ends(o.lines) == (if s.negotiating && !o.state.negotiating && !refused then 1 else 0)
    && (o.state.negotiating ==> s.negotiating)
  }

  lemma FinishSays(s: State, lines: seq<Line>)
    requires forall i :: 0 <= i < |lines| ==> !lines[i].CapReq? && !lines[i].CapEnd?
    ensures Secrets(After(lines, Finish(s)).lines) == lines
    ensures Ends(After(lines, Finish(s)).lines) == if s.negotiating then 1 else 0
  {
    AllSecret(lines);
    OneLine(CapEnd);
    SecretsJoin(lines, Finish(s).lines);
    assert lines + [] == lines;
  }

  lemma FinishSpeaks(s: State, said: seq<Line>, lines: seq<Line>, c: Credentials)
    requires Closed(said + lines, c)
    requires forall i :: 0 <= i < |lines| ==> !lines[i].CapReq? && !lines[i].CapEnd?
    ensures Speaks(s, said, After(lines, Finish(s)), c, false)
  {
    FinishSays(s, lines);
  }

  lemma SilentSpeaks(s: State, next: State, said: seq<Line>, c: Credentials)
    requires Consistent(s, said, c)
    requires SameTalk(s, next)
    ensures Speaks(s, said, Out(next, []), c, false)
  {
    assert said + [] == said;
  }

  lemma AbortSpeaks(s: State, c: Credentials, said: seq<Line>)
    requires Consistent(s, said, c) && s.wait
    ensures Speaks(s, said, After([Abort], Finish(s)), c, false)
  {
    var asked := [Mechanism(c.external)];
    assert said + [Abort] == Aborted(c, if s.answered then |Spoken(c)| else 0) by {
      assert Spoken(c)[..|Spoken(c)|] == Spoken(c) && Spoken(c)[..0] == [];
      assert asked + [] == asked;
    }
    FinishSpeaks(s, said, [Abort], c);
  }

  /** A payload that the connection does not take in full is given up. */
  lemma CutOffSpeaks(s: State, c: Credentials, good: nat, said: seq<Line>)
    requires Consistent(s, said, c) && s.wait && !s.answered && good < |Spoken(c)|
    ensures Speaks(s, said, After(Spoken(c)[..good + 1] + [Abort], Finish(s)), c, false)
  {
    assert [Mechanism(c.external)] + [] == [Mechanism(c.external)];
    assert said + (Spoken(c)[..good + 1] + [Abort]) == Aborted(c, good + 1);
    FinishSpeaks(s, said, Spoken(c)[..good + 1] + [Abort], c);
  }

  lemma AnswerSpeaks(s: State, c: Credentials, plus: bool, good: nat, said: seq<Line>)
    requires Consistent(s, said, c) && s.wait
    ensures Speaks(s, said, Step(s, c, Authenticate(plus), 0, good), c, false)
  {
    if s.answered || !plus {
      AbortSpeaks(s, c, said);
    } else if good < |Spoken(c)| {
      CutOffSpeaks(s, c, good, said);
    } else {
      AllSecret(Spoken(c));
      assert [Mechanism(c.external)] + [] == [Mechanism(c.external)];
    }
  }

  lemma DecideSpeaks(s: State, c: Credentials, command: Command, more: bool, now: nat, good: nat, said: seq<Line>)
    requires Consistent(s, said, c)
    ensures Speaks(s, said, Decide(s, c, command, more, now, good), c, false)
  {
    assert said + [] == said;
    if !s.negotiating {
      SilentSpeaks(s, s, said, c);
    } else if command == Ls && !more {
      OneLine(CapReq(s.requests));
      OneLine(CapEnd);
    } else if command == Ack || command == Nak {
      ReplySpeaks(s, c, command, now, good, said);
    } else {
      SilentSpeaks(s, s, said, c);
    }
  }

  lemma ReplySpeaks(s: State, c: Credentials, command: Command, now: nat, good: nat, said: seq<Line>)
    requires Consistent(s, said, c) && s.negotiating && (command == Ack || command == Nak)
    ensures Speaks(s, said, Decide(s, c, command, false, now, good), c, false)
  {
    if command == Ack && s.requested && "sasl" !in s.enabled {
      SilentSpeaks(s, s, said, c);
    } else if s.wait {
      SilentSpeaks(s, s, said, c);
    } else if command == Ack && Configured(c) && "sasl" in s.enabled {
      OneLine(Mechanism(c.external));
      assert [Mechanism(c.external)] + [] == [] + [Mechanism(c.external)];
      assert said + [Mechanism(c.external)] == [Mechanism(c.external)];
      FinishSpeaks(s, said, [Mechanism(c.external)], c);
    } else {
      VerdictFinish(s, said, c);
    }
  }

  lemma VerdictFinish(s: State, said: seq<Line>, c: Credentials)
    requires Closed(said, c)
    ensures Speaks(s, said, Finish(s), c, false)
  {
    assert said + [] == said;
    assert [] + Finish(s).lines == Finish(s).lines;
    FinishSpeaks(s, said, [], c);
  }

  lemma StepSpeaks(s: State, c: Credentials, e: Event, now: nat, good: nat, said: seq<Line>)
    requires Consistent(s, said, c)
    ensures Speaks(s, said, Step(s, c, e, now, good), c, e.NoSuchCommand?)
  {
    match e
    case Authenticate(plus) =>
      if s.wait { AnswerSpeaks(s, c, plus, good, said); } else { SilentSpeaks(s, s, said, c); }
    case Success => VerdictSpeaks(s, c, said);
    case Failure => VerdictSpeaks(s, c, said);
    case NoSuchCommand => RefusalSpeaks(s, c, said);
    case Cap(command, more, tokens) => CapSpeaks(s, c, command, more, tokens, now, good, said);
    case Poll => TimeoutSpeaks(s, c, now, said);
  }

  lemma RefusalSpeaks(s: State, c: Credentials, said: seq<Line>)
    requires Consistent(s, said, c)
    ensures Speaks(s, said, Out(s.(negotiating := false), []), c, true)
  {
    assert said + [] == said;
  }

  lemma CapSpeaks(s: State, c: Credentials, command: Command, more: bool, tokens: seq<Token>, now: nat, good: nat,
                  said: seq<Line>)
    requires Consistent(s, said, c)
    ensures Speaks(s, said, Step(s, c, Cap(command, more, tokens), now, good), c, false)
  {
    DecideAfter(s, Listed(s, c, command, more, tokens, now), c, command, more, now, good, said);
  }

  lemma DecideAfter(s: State, listed: State, c: Credentials, command: Command, more: bool, now: nat, good: nat,
                    said: seq<Line>)
    requires Consistent(s, said, c) && SameTalk(s, listed)
    ensures Speaks(s, said, Decide(listed, c, command, more, now, good), c, false)
  {
    DecideSpeaks(listed, c, command, more, now, good, said);
  }

  lemma VerdictSpeaks(s: State, c: Credentials, said: seq<Line>)
    requires Consistent(s, said, c)
    ensures Speaks(s, said, if s.wait then Finish(s) else Out(s, []), c, false)
  {
    if s.wait {
      assert [Mechanism(c.external)] + [] == [Mechanism(c.external)];
      VerdictFinish(s, said, c);
    } else {
      SilentSpeaks(s, s, said, c);
    }
  }

  lemma TimeoutSpeaks(s: State, c: Credentials, now: nat, said: seq<Line>)
    requires Consistent(s, said, c)
    ensures Speaks(s, said, Step(s, c, Poll, now, 0), c, false)
  {
    if s.deadline == 0 || now < s.deadline {
      SilentSpeaks(s, s, said, c);
    } else if s.wait {
      AbortSpeaks(s, c, said);
    } else {
      assert said + [] == said;
      FinishSpeaks(s, said, [], c);
    }
  }

  predicate Refused(inputs: seq<Input>) {
    exists i :: 0 <= i < |inputs| && inputs[i].event.NoSuchCommand?
  }

  /** Over every run the conversation about authentication is one attempt, never a second; the registration is
      released at most once, and exactly once when negotiation ended and the server knows the command. */
  lemma {:induction false} RunSpeaks(c: Credentials, inputs: seq<Input>)
    ensures var o := Run(c, inputs);
            && Consistent(o.state, Secrets(o.lines), c)
            && Ends(o.lines) <= (if o.state.negotiating then 0 else 1)
            && (!Refused(inputs) && !o.state.negotiating ==> Ends(o.lines) == 1)
    decreases |inputs|
  {
    if inputs != [] {
      var front, last := inputs[..|inputs| - 1], inputs[|inputs| - 1];
      RunSpeaks(c, front);
      var before := Run(c, front);
      var step := Step(before.state, c, last.event, last.now, last.good);
      StepSpeaks(before.state, c, last.event, last.now, last.good, Secrets(before.lines));
      SecretsJoin(before.lines, step.lines);
      assert forall i :: 0 <= i < |front| ==> front[i] == inputs[i];
    }
  }

  // ---------------------------------------------------------------- the password goes out at most once

  function Told(lines: seq<Line>): (r: seq<Line>)
    ensures forall i :: 0 <= i < |r| ==> r[i].Chunk?
  {
    if lines == [] then []
    else
      var last := lines[|lines| - 1];
      Told(lines[..|lines| - 1]) + if last.Chunk? then [last] else []
  }

  lemma {:induction false} ToldIsSecret(lines: seq<Line>)
    ensures Told(Secrets(lines)) == Told(lines)
    decreases |lines|
  {
    if lines != [] {
      var front, last := lines[..|lines| - 1], lines[|lines| - 1];
      ToldIsSecret(front);
      if last.CapReq? || last.CapEnd? {
        assert Secrets(front) + [] == Secrets(front);
        assert Told(front) + [] == Told(front);
      } else {
        assert (Secrets(front) + [last])[..|Secrets(front)|] == Secrets(front);
      }
    }
  }

  lemma {:induction false} ToldAll(head: Line, chunks: seq<Line>)
    requires head.Mechanism? && forall i :: 0 <= i < |chunks| ==> chunks[i].Chunk?
    ensures Told([head] + chunks) == chunks
  {
    if chunks == [] {
      assert ([head] + chunks)[..0] == [];
    } else {
      var front, last := chunks[..|chunks| - 1], chunks[|chunks| - 1];
      ToldAll(head, front);
      assert ([head] + chunks)[..|chunks|] == [head] + front;
      assert front + [last] == chunks;
    }
  }

  lemma ToldChunks(c: Credentials, k: nat)
    requires k <= |Spoken(c)|
    ensures Told([Mechanism(c.external)] + Spoken(c)[..k]) == Spoken(c)[..k]
  {
    ToldAll(Mechanism(c.external), Spoken(c)[..k]);
  }

  lemma ClosedTells(said: seq<Line>, c: Credentials)
    requires Closed(said, c)
    ensures Told(said) <= Spoken(c)
  {
    ToldChunks(c, 0);
    ToldChunks(c, |Spoken(c)|);
    assert [Mechanism(c.external)] + Spoken(c)[..0] == [Mechanism(c.external)];
    assert Spoken(c)[..|Spoken(c)|] == Spoken(c);
    if k :| 0 <= k <= |Spoken(c)| && said == Aborted(c, k) {
      ToldChunks(c, k);
      assert said[..|said| - 1] == [Mechanism(c.external)] + Spoken(c)[..k];
      assert Spoken(c)[..k] + [] == Spoken(c)[..k];
    }
  }

  /** The credential lines of a whole run are a beginning of one payload: no line of it is ever repeated. */
  lemma PayloadAtMostOnce(c: Credentials, inputs: seq<Input>)
    ensures Told(Run(c, inputs).lines) <= Spoken(c)
    ensures Run(c, inputs).state.answered && Run(c, inputs).state.wait ==> Told(Run(c, inputs).lines) == Spoken(c)
  {
    var o := Run(c, inputs);
    RunSpeaks(c, inputs);
    ToldIsSecret(o.lines);
    WaitTells(o.state, Secrets(o.lines), c);
  }

  lemma WaitTells(s: State, said: seq<Line>, c: Credentials)
    requires Consistent(s, said, c)
    ensures Told(said) <= Spoken(c) && (s.wait && s.answered ==> Told(said) == Spoken(c))
  {
    var asked := [Mechanism(c.external)];
    assert Spoken(c)[..|Spoken(c)|] == Spoken(c) && asked + [] == asked;
    if s.wait && s.answered {
      ToldChunks(c, |Spoken(c)|);
    } else if s.wait {
      assert Closed(said, c);
      ClosedTells(said, c);
    } else if !s.negotiating {
      ClosedTells(said, c);
    }
  }

  // ---------------------------------------------------------------- a silent server

  ghost predicate Timed(s: State, now: nat) {
    && (s.wait ==> s.deadline > 0)
    && (s.negotiating && s.requested ==> s.deadline > 0)
    && (s.deadline > 0 ==> s.wait || s.requested)
    && s.deadline <= now + TIMEOUT
  }

  lemma StepTimed(s: State, c: Credentials, e: Event, now: nat, good: nat)
    requires Timed(s, now)
    ensures Timed(Step(s, c, e, now, good).state, now)
  {
    if e.Cap? {
      DecideTimed(Listed(s, c, e.command, e.more, e.tokens, now), c, e.command, e.more, now, good);
    } else if e.Authenticate? {
      AnswerTimed(s, c, e.plus, now, good);
    }
  }

  lemma AnswerTimed(s: State, c: Credentials, plus: bool, now: nat, good: nat)
    requires Timed(s, now)
    ensures Timed(Step(s, c, Authenticate(plus), now, good).state, now)
  {
  }

  lemma DecideTimed(s: State, c: Credentials, command: Command, more: bool, now: nat, good: nat)
    requires Timed(s, now)
    ensures Timed(Decide(s, c, command, more, now, good).state, now)
  {
  }

  ghost predicate Monotone(inputs: seq<Input>, now: nat) {
    && (forall i, j :: 0 <= i <= j < |inputs| ==> inputs[i].now <= inputs[j].now)
    && (forall i :: 0 <= i < |inputs| ==> inputs[i].now <= now)
  }

  lemma {:induction false} RunTimed(c: Credentials, inputs: seq<Input>, now: nat)
    requires Monotone(inputs, now)
    ensures Timed(Run(c, inputs).state, now)
    decreases |inputs|
  {
    if inputs != [] {
      var front, last := inputs[..|inputs| - 1], inputs[|inputs| - 1];
      assert Monotone(front, last.now);
      assert last.now <= now;
      RunTimed(c, front, last.now);
      StepTimed(Run(c, front).state, c, last.event, last.now, last.good);
    }
  }

  /** Thirty seconds after the last message at the latest a poll lets the registration go on, exactly if an
      authentication was begun, SASL was found on offer, or the negotiation was over anyway: a server that falls
      silent before its capability list has no timer against it. */
  lemma TimeoutReleases(c: Credentials, inputs: seq<Input>, last: nat, now: nat)
    requires Monotone(inputs, last) && now >= last + TIMEOUT
    ensures var s, polled := Run(c, inputs).state, Step(Run(c, inputs).state, c, Poll, now, 0).state;
            !polled.wait && !polled.negotiating <==> s.wait || s.requested || !s.negotiating
  {
    RunTimed(c, inputs, last);
    PollReleases(Run(c, inputs).state, c, last, now);
  }

  lemma PollReleases(s: State, c: Credentials, last: nat, now: nat)
    requires Timed(s, last) && now >= last + TIMEOUT
    ensures var polled := Step(s, c, Poll, now, 0).state;
            !polled.wait && !polled.negotiating <==> s.wait || s.requested || !s.negotiating
  {
  }

  /** A server that never answers at all: no poll, however late, ends the negotiation. */
  lemma SilenceHolds(c: Credentials, now: nat)
    ensures Step(Run(c, []).state, c, Poll, now, 0) == Out(FRESH, []) && FRESH.negotiating
  {
  }

  // ---------------------------------------------------------------- what the lists mean

  /** The last word about a capability in a list, if there is one. */
  function LastWord(tokens: seq<Token>, name: string): (r: seq<Token>)
    ensures |r| <= 1 && (r != [] ==> r[0].name == name)
    decreases |tokens|
  {
    if tokens == [] then []
    else if tokens[|tokens| - 1].name == name then [tokens[|tokens| - 1]]
    else LastWord(tokens[..|tokens| - 1], name)
  }

  /** A capability after a list that may set it: as the last word about it has it. */
  predicate Follows(after: map<string, string>, before: map<string, string>, name: string, word: seq<Token>) {
    if word == [] then (name in after <==> name in before) && (name in before ==> after[name] == before[name])
    else if word[0].remove then name !in after
    else name in after && after[name] == word[0].value
  }

  /** A capability after a list that can only take it away. */
  predicate Loses(after: map<string, string>, before: map<string, string>, name: string, word: seq<Token>) {
    if word != [] then name !in after else Follows(after, before, name, [])
  }

  lemma {:induction false} AppliedSplits(s: State, command: Command, a: seq<Token>, b: seq<Token>, configured: bool, now: nat)
    ensures ApplyTokens(s, command, a + b, configured, now)
         == ApplyTokens(ApplyTokens(s, command, a, configured, now), command, b, configured, now)
    decreases |a|
  {
    if a == [] {
      assert a + b == b;
    } else {
      assert (a + b)[1..] == a[1..] + b;
      AppliedSplits(ApplyToken(s, command, a[0], configured, now), command, a[1..], b, configured, now);
    }
  }

  lemma LastApplied(s: State, command: Command, tokens: seq<Token>, last: Token, configured: bool, now: nat)
    ensures ApplyTokens(s, command, tokens + [last], configured, now)
         == ApplyToken(ApplyTokens(s, command, tokens, configured, now), command, last, configured, now)
  {
    AppliedSplits(s, command, tokens, [last], configured, now);
    assert [last][1..] == [];
  }

  predicate Proper(name: string) {
    0 < |name| <= 1024
  }

  /** What a server offers is what the last word of its LS and NEW lists says, less what a DEL names; what is enabled
      is what the last word of ACK and LIST says, less what a DEL or NAK names. */
  ghost predicate ListsMean(s: State, r: State, command: Command, name: string, word: seq<Token>) {
    match command
    case Ls => Follows(r.capabilities, s.capabilities, name, word) && r.enabled == s.enabled
    case New => Follows(r.capabilities, s.capabilities, name, word) && r.enabled == s.enabled
    case Del => Loses(r.capabilities, s.capabilities, name, word) && Loses(r.enabled, s.enabled, name, word)
    case Ack => Follows(r.enabled, s.enabled, name, word) && r.capabilities == s.capabilities
    case List => Follows(r.enabled, s.enabled, name, word) && r.capabilities == s.capabilities
    case Nak => Loses(r.enabled, s.enabled, name, word) && r.capabilities == s.capabilities
    case Unknown => r.capabilities == s.capabilities && r.enabled == s.enabled
  }

  lemma {:induction false} ListsApply(s: State, command: Command, tokens: seq<Token>, configured: bool, now: nat, name: string)
    requires Proper(name)
    ensures ListsMean(s, ApplyTokens(s, command, tokens, configured, now), command, name, LastWord(tokens, name))
    decreases |tokens|
  {
    if tokens != [] {
      var front, last := tokens[..|tokens| - 1], tokens[|tokens| - 1];
      assert tokens == front + [last];
      ListsApply(s, command, front, configured, now, name);
      LastApplied(s, command, front, last, configured, now);
      OneWord(s, ApplyTokens(s, command, front, configured, now), command, last, configured, now, name, LastWord(front, name));
    }
  }

  ghost predicate StartsOver(s: State, r: State, command: Command, more: bool, name: string, word: seq<Token>) {
    match command
    case Ls =>
      && r.listing == more && r.enabled == s.enabled
      && Follows(r.capabilities, if s.listing then s.capabilities else map[], name, word)
    case List =>
      && r.listingEnabled == more && r.capabilities == s.capabilities
      && Follows(r.enabled, if s.listingEnabled then s.enabled else map[], name, word)
    case _ => true
  }

  /** A capability list replaces the last one, offers and enabled ones alike, unless it continues it. */
  lemma ListStartsOver(s: State, c: Credentials, more: bool, tokens: seq<Token>, now: nat, good: nat, name: string)
    requires Proper(name)
    ensures StartsOver(s, Step(s, c, Cap(Ls, more, tokens), now, good).state, Ls, more, name, LastWord(tokens, name))
    ensures StartsOver(s, Step(s, c, Cap(List, more, tokens), now, good).state, List, more, name, LastWord(tokens, name))
  {
    ListedOver(s, c, Ls, more, tokens, now, name);
    ListedOver(s, c, List, more, tokens, now, name);
    DecideKeepsLists(Listed(s, c, Ls, more, tokens, now), c, Ls, more, now, good);
    DecideKeepsLists(Listed(s, c, List, more, tokens, now), c, List, more, now, good);
  }

  lemma ListedOver(s: State, c: Credentials, command: Command, more: bool, tokens: seq<Token>, now: nat, name: string)
    requires Proper(name)
    ensures StartsOver(s, Listed(s, c, command, more, tokens, now), command, more, name, LastWord(tokens, name))
  {
    var begun := BeginList(s, command, more);
    ListsApply(begun, command, tokens, Configured(c), now, name);
    ListingKept(begun, command, tokens, Configured(c), now);
  }

  lemma DecideKeepsLists(s: State, c: Credentials, command: Command, more: bool, now: nat, good: nat)
    requires command == Ls || command == List
    ensures var r := Decide(s, c, command, more, now, good).state;
            && r.capabilities == s.capabilities && r.enabled == s.enabled
            && r.listing == s.listing && r.listingEnabled == s.listingEnabled
  {
  }

  lemma {:induction false} ListingKept(s: State, command: Command, tokens: seq<Token>, configured: bool, now: nat)
    ensures var r := ApplyTokens(s, command, tokens, configured, now);
            r.listing == s.listing && r.listingEnabled == s.listingEnabled
    decreases |tokens|
  {
    if tokens != [] {
      ListingKept(ApplyToken(s, command, tokens[0], configured, now), command, tokens[1..], configured, now);
    }
  }

  lemma SetWord(m: map<string, string>, before: map<string, string>, last: Token, name: string, word: seq<Token>)
    requires |word| <= 1 && Follows(m, before, name, word)
    ensures Follows(if last.remove then m - {last.name} else m[last.name := last.value], before, name,
                    if last.name == name then [last] else word)
  {
  }

  lemma DropWord(m: map<string, string>, before: map<string, string>, last: Token, name: string, word: seq<Token>)
    requires |word| <= 1 && Loses(m, before, name, word)
    ensures Loses(m - {last.name}, before, name, if last.name == name then [last] else word)
  {
  }

  lemma OneWord(s: State, r: State, command: Command, last: Token, configured: bool, now: nat, name: string, word: seq<Token>)
    requires Proper(name) && |word| <= 1 && ListsMean(s, r, command, name, word)
    ensures ListsMean(s, ApplyToken(r, command, last, configured, now), command, name, if last.name == name then [last] else word)
  {
    if Proper(last.name) {
      match command
      case Ls => SetWord(r.capabilities, s.capabilities, last, name, word);
      case New => SetWord(r.capabilities, s.capabilities, last, name, word);
      case Del =>
        DropWord(r.capabilities, s.capabilities, last, name, word);
        DropWord(r.enabled, s.enabled, last, name, word);
      case Ack => SetWord(r.enabled, s.enabled, last, name, word);
      case List => SetWord(r.enabled, s.enabled, last, name, word);
      case Nak => DropWord(r.enabled, s.enabled, last, name, word);
      case Unknown =>
    }
  }

  // ---------------------------------------------------------------- what is asked for

  /** The request line only grows, within its buffer. */
  lemma RequestGrows(requests: string, name: string)
    requires |requests| <= REQUESTS && name != ""
    ensures requests <= Request(requests, name) && 0 < |Request(requests, name)| <= REQUESTS
  {
  }

  lemma WordGrows(s: State, command: Command, t: Token, configured: bool, now: nat)
    requires |s.requests| <= REQUESTS
    ensures var r := ApplyToken(s, command, t, configured, now).requests; s.requests <= r && |r| <= REQUESTS
  {
    if t.name != "" {
      RequestGrows(s.requests, t.name);
      assert ApplyToken(s, command, t, configured, now).requests in {s.requests, Request(s.requests, t.name)};
    }
  }

  lemma PrefixChain<T>(a: seq<T>, b: seq<T>, c: seq<T>)
    requires a <= b && b <= c
    ensures a <= c
  {
  }

  lemma {:induction false} LineGrows(s: State, command: Command, tokens: seq<Token>, configured: bool, now: nat)
    requires |s.requests| <= REQUESTS
    ensures var r := ApplyTokens(s, command, tokens, configured, now).requests; s.requests <= r && |r| <= REQUESTS
    decreases |tokens|
  {
    if tokens != [] {
      var next := ApplyToken(s, command, tokens[0], configured, now);
      WordGrows(s, command, tokens[0], configured, now);
      LineGrows(next, command, tokens[1..], configured, now);
      PrefixChain(s.requests, next.requests, ApplyTokens(s, command, tokens, configured, now).requests);
    }
  }

  /** No letter of the words asked for besides sasl is an a, so that word is recognised wherever it stands. */
  predicate Without(s: string) {
    forall i :: 0 <= i < |s| ==> s[i] != 'a'
  }

  lemma WhereSasl(s: string, i: nat)
    requires i <= |s| && "sasl" <= s[i..]
    ensures i + 4 <= |s| && s[i + 1] == 'a'
  {
    assert s[i..][1] == s[i + 1];
  }

  lemma NotContained(s: string)
    requires Without(s)
    ensures !Contains(s, "sasl")
  {
    if Contains(s, "sasl") {
      var i :| 0 <= i <= |s| && "sasl" <= s[i..];
      WhereSasl(s, i);
    }
  }

  /** A request line of at most 63 characters has room for the word if five are left, or all. */
  predicate HasRoom(requests: string) {
    requests == "" || |requests| + 5 <= 63
  }

  /** Adding the word: it stands in the line afterwards exactly if there was room. */
  lemma SaslAdded(requests: string)
    requires Without(requests) && |requests| <= REQUESTS
    ensures Contains(Request(requests, "sasl"), "sasl") <==> HasRoom(requests)
    ensures !HasRoom(requests) ==> |Request(requests, "sasl")| == REQUESTS
  {
    NotContained(requests);
    var r := Request(requests, "sasl");
    if HasRoom(requests) {
      var i := if requests == "" then 0 else |requests| + 1;
      assert r[i..] == "sasl";
    } else {
      assert forall i :: 0 <= i < |r| && r[i] == 'a' ==> i == |requests| + 2;
      if Contains(r, "sasl") {
        var i :| 0 <= i <= |r| && "sasl" <= r[i..];
        WhereSasl(r, i);
      }
    }
  }

  lemma ContainsMore(s: string, r: string, word: string)
    requires s <= r && Contains(s, word)
    ensures Contains(r, word)
  {
    var i :| 0 <= i <= |s| && word <= s[i..];
    assert s[i..] <= r[i..];
  }

  lemma FullStays(requests: string, name: string)
    requires |requests| == REQUESTS
    ensures Request(requests, name) == requests
  {
    assert Clip(requests + " ") == requests && Clip(requests + name) == requests;
  }

  predicate Authenticates(c: Credentials) {
    c.user != [] || c.external
  }

  predicate Offers(tokens: seq<Token>) {
    exists i :: 0 <= i < |tokens| && tokens[i].name == "sasl" && !tokens[i].remove
  }

  lemma {:induction false} OfferIsAsked(s: State, tokens: seq<Token>, now: nat)
    requires |s.requests| <= REQUESTS && Offers(tokens)
    ensures var r := ApplyTokens(s, Ls, tokens, true, now);
            r.requested && r.requests != "" && r.deadline == now + TIMEOUT
    decreases |tokens|
  {
    var i :| 0 <= i < |tokens| && tokens[i].name == "sasl" && !tokens[i].remove;
    var next := ApplyToken(s, Ls, tokens[0], true, now);
    WordGrows(s, Ls, tokens[0], true, now);
    if i == 0 {
      RequestGrows(s.requests, "sasl");
      LineGrows(next, Ls, tokens[1..], true, now);
    } else {
      assert tokens[1..][i - 1] == tokens[i];
      OfferIsAsked(next, tokens[1..], now);
    }
  }

  lemma WordWithout(s: State, t: Token, now: nat)
    requires Without(s.requests) && !(t.name == "sasl" && !t.remove)
    ensures Without(ApplyToken(s, Ls, t, true, now).requests)
  {
    if SameWord(t.name, "rustyrig") || SameWord(t.name, "multi-prefix") {
      assert forall i :: 0 <= i < |t.name| ==> Lower(t.name[i]) != 'a';
    }
  }

  lemma {:induction false} WordsWithout(s: State, tokens: seq<Token>, now: nat)
    requires Without(s.requests) && !Offers(tokens)
    ensures Without(ApplyTokens(s, Ls, tokens, true, now).requests)
    decreases |tokens|
  {
    if tokens != [] {
      WordWithout(s, tokens[0], now);
      forall i | 0 <= i < |tokens[1..]| ensures !(tokens[1..][i].name == "sasl" && !tokens[1..][i].remove) {
        assert tokens[1..][i] == tokens[i + 1];
      }
      WordsWithout(ApplyToken(s, Ls, tokens[0], true, now), tokens[1..], now);
    }
  }

  lemma {:induction false} FullLineStays(s: State, tokens: seq<Token>, now: nat)
    requires |s.requests| == REQUESTS
    ensures ApplyTokens(s, Ls, tokens, true, now).requests == s.requests
    decreases |tokens|
  {
    if tokens != [] {
      FullStays(s.requests, tokens[0].name);
      FullLineStays(ApplyToken(s, Ls, tokens[0], true, now), tokens[1..], now);
    }
  }

  /** The request line names sasl exactly if it has room when the offer is read: words that differ only in case fill it
      up one by one. */
  lemma SaslIsNamed(s: State, before: seq<Token>, offer: Token, after: seq<Token>, now: nat)
    requires s.requests == "" && !Offers(before) && offer.name == "sasl" && !offer.remove
    ensures Contains(ApplyTokens(s, Ls, before + ([offer] + after), true, now).requests, "sasl")
       <==> HasRoom(ApplyTokens(s, Ls, before, true, now).requests)
  {
    var r := ApplyTokens(s, Ls, before, true, now);
    var named := ApplyToken(r, Ls, offer, true, now);
    AppliedSplits(s, Ls, before, [offer] + after, true, now);
    assert ([offer] + after)[1..] == after;
    LineGrows(s, Ls, before, true, now);
    WordsWithout(s, before, now);
    SaslAdded(r.requests);
    if HasRoom(r.requests) {
      WordGrows(r, Ls, offer, true, now);
      LineGrows(named, Ls, after, true, now);
      ContainsMore(named.requests, ApplyTokens(named, Ls, after, true, now).requests, "sasl");
    } else {
      FullLineStays(named, after, now);
    }
  }

  /** What the words asked for besides sasl can take up, each with a space. */
  function Taken(tokens: seq<Token>): nat {
    if tokens == [] then 0
    else (if SameWord(tokens[0].name, "rustyrig") then 9 else if SameWord(tokens[0].name, "multi-prefix") then 13 else 0)
         + Taken(tokens[1..])
  }

  /** Words that take up 58 bytes at most in front of the offer leave room for it. */
  lemma {:induction false} UsuallyRoom(s: State, before: seq<Token>, now: nat)
    requires !Offers(before) && |s.requests| + Taken(before) <= 58
    ensures |ApplyTokens(s, Ls, before, true, now).requests| <= |s.requests| + Taken(before)
    ensures HasRoom(ApplyTokens(s, Ls, before, true, now).requests)
    decreases |before|
  {
    if before != [] {
      var next := ApplyToken(s, Ls, before[0], true, now);
      assert |next.requests| <= |s.requests| + Taken(before) - Taken(before[1..]);
      forall i | 0 <= i < |before[1..]| ensures !(before[1..][i].name == "sasl" && !before[1..][i].remove) {
        assert before[1..][i] == before[i + 1];
      }
      UsuallyRoom(next, before[1..], now);
    }
  }

  // ---------------------------------------------------------------- a registration that succeeds

  /** The end of an LS with sasl on offer asks for it, once. */
  lemma OfferAsked(s: State, c: Credentials, tokens: seq<Token>, now: nat, good: nat)
    requires s.negotiating && Authenticates(c) && Offers(tokens) && |s.requests| <= REQUESTS
    ensures var o := Step(s, c, Cap(Ls, false, tokens), now, good);
            && o.lines == [CapReq(o.state.requests)] && o.state.requests != "" && |o.state.requests| <= 63
            && o.state.requested && o.state.negotiating && o.state.wait == s.wait && o.state.answered == s.answered
            && o.state.deadline == now + 30000
  {
    var begun := BeginList(s, Ls, false);
    OfferIsAsked(begun, tokens, now);
    LineGrows(begun, Ls, tokens, true, now);
  }

  /** A new list that offers nothing of use ends the negotiation, whatever an older one has offered. */
  lemma NothingOffered(s: State, c: Credentials, tokens: seq<Token>, now: nat, good: nat)
    requires s.negotiating && !s.listing && Useless(tokens, Authenticates(c))
    ensures var o := Step(s, c, Cap(Ls, false, tokens), now, good); o.lines == [CapEnd] && !o.state.negotiating
  {
    UselessAsksNothing(BeginList(s, Ls, false), tokens, Configured(c), now);
  }

  ghost predicate Useless(tokens: seq<Token>, configured: bool) {
    forall t :: t in tokens ==>
      t.remove || !(SameWord(t.name, "rustyrig") || SameWord(t.name, "multi-prefix") || (t.name == "sasl" && configured))
  }

  lemma {:induction false} UselessAsksNothing(s: State, tokens: seq<Token>, configured: bool, now: nat)
    requires Useless(tokens, configured)
    ensures ApplyTokens(s, Ls, tokens, configured, now).requests == s.requests
    decreases |tokens|
  {
    if tokens != [] {
      UselessAsksNothing(ApplyToken(s, Ls, tokens[0], configured, now), tokens[1..], configured, now);
    }
  }

  /** A refusal of what was asked for ends the negotiation, unless an authentication is under way. */
  lemma NakAnswered(s: State, c: Credentials, more: bool, tokens: seq<Token>, now: nat, good: nat)
    requires s.negotiating
    ensures var o := Step(s, c, Cap(Nak, more, tokens), now, good);
            if s.wait then o.lines == [] && o.state.wait && o.state.negotiating
            else o.lines == [CapEnd] && !o.state.wait && !o.state.negotiating
  {
    var listed := Listed(s, c, Nak, more, tokens, now);
    assert SameTalk(s, listed);
  }

  /** The answer to every ACK while nothing is under way: with credentials and sasl left enabled the mechanism, and then
      the wait for the prompt; with sasl asked for but not among what is enabled silence; otherwise the end. */
  lemma AckAnswered(s: State, c: Credentials, more: bool, tokens: seq<Token>, now: nat, good: nat)
    requires s.negotiating && !s.wait
    ensures var o, word := Step(s, c, Cap(Ack, more, tokens), now, good), LastWord(tokens, "sasl");
            var enabled := if word == [] then "sasl" in s.enabled else !word[0].remove;
            if s.requested && !enabled then o.lines == [] && o.state.negotiating && !o.state.wait
            else if !Authenticates(c) || !enabled then o.lines == [CapEnd] && !o.state.negotiating && !o.state.wait
            else if good == 0 then o.lines == [Mechanism(c.external), CapEnd] && !o.state.negotiating && !o.state.wait
            else && o.lines == [Mechanism(c.external)] && o.state.wait && o.state.negotiating
                 && o.state.deadline == now + 30000 && o.state.answered == s.answered
  {
    ListsApply(s, Ack, tokens, Configured(c), now, "sasl");
    var r := ApplyTokens(s, Ack, tokens, Configured(c), now);
    AckKeeps(s, tokens, Configured(c), now);
    assert [Mechanism(c.external)] + [CapEnd] == [Mechanism(c.external), CapEnd];
  }

  lemma {:induction false} AckKeeps(s: State, tokens: seq<Token>, configured: bool, now: nat)
    ensures ApplyTokens(s, Ack, tokens, configured, now).requested == s.requested
    decreases |tokens|
  {
    if tokens != [] {
      AckKeeps(ApplyToken(s, Ack, tokens[0], configured, now), tokens[1..], configured, now);
    }
  }

  /** The parameters of an AUTHENTICATE answer, line by line. */
  predicate Carries(lines: seq<Line>, texts: seq<seq<Byte>>) {
    |lines| == |texts| && forall i :: 0 <= i < |lines| ==> lines[i] == Chunk(texts[i])
  }

  /** The first plus prompt gets the whole payload if the connection takes it. */
  lemma PromptAnswered(s: State, c: Credentials, now: nat, good: nat)
    requires s.wait && !s.answered && good >= |Payload(c)|
    ensures var o := Step(s, c, Authenticate(true), now, good);
            Carries(o.lines, Payload(c)) && o.state == s.(answered := true)
  {
  }

  /** An attempt ends with the server's verdict, and with it the negotiation. */
  lemma VerdictEnds(s: State, c: Credentials, success: bool, now: nat, good: nat)
    requires s.wait && s.negotiating
    ensures var o := Step(s, c, if success then Success else Failure, now, good);
            o.lines == [CapEnd] && !o.state.wait && !o.state.negotiating
  {
  }

  /** A second prompt, or one that is no plus, and a timer that runs out, each abort the attempt and end the negotiation. */
  lemma AbortEnds(s: State, c: Credentials, plus: bool, now: nat, good: nat)
    requires s.wait && s.negotiating
    ensures s.answered || !plus ==>
              var o := Step(s, c, Authenticate(plus), now, good);
              o.lines == [Abort, CapEnd] && !o.state.wait && !o.state.negotiating
    ensures 0 < s.deadline <= now ==>
              var o := Step(s, c, Poll, now, good);
              o.lines == [Abort, CapEnd] && !o.state.wait && !o.state.negotiating
  {
    assert [Abort] + [CapEnd] == [Abort, CapEnd];
  }

  predicate Parts(inputs: seq<Input>) {
    forall i :: 0 <= i < |inputs| ==> inputs[i].event.Cap? && inputs[i].event.command == Ls && inputs[i].event.more
  }

  lemma RunNext(c: Credentials, inputs: seq<Input>, i: Input)
    ensures Run(c, inputs + [i]) == After(Run(c, inputs).lines, Step(Run(c, inputs).state, c, i.event, i.now, i.good))
  {
    assert (inputs + [i])[..|inputs|] == inputs;
  }

  /** The first parts of a list in several messages say nothing yet. */
  lemma {:induction false} PartsSilent(c: Credentials, parts: seq<Input>)
    requires Parts(parts)
    ensures var o := Run(c, parts);
            && o.lines == [] && o.state.negotiating && !o.state.wait && !o.state.answered && |o.state.requests| <= REQUESTS
    decreases |parts|
  {
    if parts != [] {
      var front, last := parts[..|parts| - 1], parts[|parts| - 1];
      PartsSilent(c, front);
      LineGrows(BeginList(Run(c, front).state, Ls, true), Ls, last.event.tokens, Configured(c), last.now);
    }
  }

  /** A registration against a server that offers sasl, acknowledges it, prompts once and accepts, for all credentials
      and however the offer is cut into messages: one request, the mechanism, the payload line by line, CAP END, and
      not a word more. */
  lemma Registers(c: Credentials, parts: seq<Input>, offer: Input, ack: Input, prompt: Input, verdict: Input)
    returns (names: string, chunks: seq<Line>)
    requires Authenticates(c) && Parts(parts)
    requires offer.event.Cap? && offer.event.command == Ls && !offer.event.more && Offers(offer.event.tokens)
    requires ack.event.Cap? && ack.event.command == Ack && ack.good > 0
    requires var word := LastWord(ack.event.tokens, "sasl"); word != [] && !word[0].remove
    requires prompt.event == Authenticate(true) && prompt.good >= |Payload(c)| && verdict.event == Success
    ensures var o := Run(c, parts + [offer] + [ack] + [prompt] + [verdict]);
            && o.lines == [CapReq(names)] + [Mechanism(c.external)] + chunks + [CapEnd]
            && !o.state.negotiating && !o.state.wait
    ensures names != "" && |names| <= 63 && Carries(chunks, Payload(c))
    ensures names == Run(c, parts + [offer]).state.requests
  {
    PartsSilent(c, parts);
    RunNext(c, parts, offer);
    var s0 := Run(c, parts).state;
    OfferAsked(s0, c, offer.event.tokens, offer.now, offer.good);
    var s1 := Run(c, parts + [offer]).state;
    names := s1.requests;
    RunNext(c, parts + [offer], ack);
    AckAnswered(s1, c, ack.event.more, ack.event.tokens, ack.now, ack.good);
    var s2 := Run(c, parts + [offer] + [ack]).state;
    RunNext(c, parts + [offer] + [ack], prompt);
    PromptAnswered(s2, c, prompt.now, prompt.good);
    chunks := Step(s2, c, prompt.event, prompt.now, prompt.good).lines;
    RunNext(c, parts + [offer] + [ack] + [prompt], verdict);
    VerdictEnds(s2.(answered := true), c, true, verdict.now, verdict.good);
    assert [] + [CapReq(names)] == [CapReq(names)];
  }

  // ---------------------------------------------------------------- the connection

  /** The outgoing side: every line tried is kept; good lines are taken before one fails. */
  class Wire {
    var lines: seq<Line>
    var good: nat

    constructor (good: nat)
      ensures this.lines == [] && this.good == good
    {
      lines, this.good := [], good;
    }

    method Send(line: Line) returns (ok: bool)
      modifies this
      ensures lines == old(lines) + [line] && ok == (old(good) > 0) && good == if ok then old(good) - 1 else 0
    {
      lines := lines + [line];
      ok := good > 0;
      if ok {
        good := good - 1;
      }
    }
  }

  /** The payload as far as it goes. */
  method Respond(wire: Wire, c: Credentials) returns (ok: bool)
    modifies wire
    ensures wire.lines == old(wire.lines) + Attempted(Spoken(c), old(wire.good))
    ensures ok == (old(wire.good) >= |Spoken(c)|)
  {
    if c.external {
      ok := wire.Send(Chunk([PLUS]));
      assert Spoken(c) == [Chunk([PLUS])];
      assert Spoken(c)[..1] == Spoken(c);
    } else {
      var plain := Plain(c);
      var encoded := new Byte[4 * ((|plain| + 2) / 3)];
      var length := Encode(plain, encoded);
      ok := SendChunks(wire, encoded[..length]);
    }
  }

  /** The AUTHENTICATE parameters still to be sent from a position of the encoded text. */
  function Remaining(e: seq<Byte>, i: nat): seq<seq<Byte>> {
    if i < |e| then Chunks(e[i..]) else if |e| % CHUNK == 0 then [[PLUS]] else []
  }

  lemma NextPiece(e: seq<Byte>, i: nat)
    requires i < |e| && i % CHUNK == 0
    ensures Remaining(e, i) == [e[i..if |e| - i > CHUNK then i + CHUNK else |e|]] + Remaining(e, i + CHUNK)
    ensures (i + CHUNK) % CHUNK == 0
  {
    FirstPiece(e[i..]);
    assert (|e| - i) % CHUNK == |e| % CHUNK;
    assert e[i..|e|] == e[i..];
    if |e| - i > CHUNK {
      assert e[i..][CHUNK..] == e[i + CHUNK..] && e[i..][..CHUNK] == e[i..i + CHUNK];
    }
  }

  lemma FirstPiece(e: seq<Byte>)
    requires e != []
    ensures Chunks(e) == if |e| > CHUNK then [e[..CHUNK]] + Chunks(e[CHUNK..])
                         else [e] + if |e| == CHUNK then [[PLUS]] else []
  {
    if |e| > CHUNK {
      var tail: seq<seq<Byte>> := if |e| % CHUNK == 0 then [[PLUS]] else [];
      assert ([e[..CHUNK]] + Pieces(e[CHUNK..])) + tail == [e[..CHUNK]] + (Pieces(e[CHUNK..]) + tail);
    }
  }

  /** Where a sending loop stands: so many lines are out and the rest is still to come. */
  ghost predicate Sending(all: seq<Line>, done: nat, rest: seq<seq<Byte>>) {
    done <= |all| && all[done..] == Marked(rest)
  }

  lemma SendingStep(all: seq<Line>, done: nat, piece: seq<Byte>, rest: seq<seq<Byte>>, base: seq<Line>)
    requires Sending(all, done, [piece] + rest)
    ensures done < |all| && all[done] == Chunk(piece) && Sending(all, done + 1, rest)
    ensures base + all[..done] + [Chunk(piece)] == base + all[..done + 1]
  {
    assert ([piece] + rest)[1..] == rest;
    assert all[done] == all[done..][0];
    assert all[done + 1..] == all[done..][1..];
    assert all[..done] + [all[done]] == all[..done + 1];
  }

  /** The lines so far are the first of all, and while all went out the rest is still to come. */
  ghost predicate Sent(lines: seq<Line>, base: seq<Line>, all: seq<Line>, done: nat, rest: seq<seq<Byte>>, ok: bool) {
    done <= |all| && lines == base + all[..done] && (ok ==> Sending(all, done, rest))
  }

  method SendPiece(wire: Wire, piece: seq<Byte>, ghost base: seq<Line>, ghost all: seq<Line>, ghost done: nat,
                   ghost rest: seq<seq<Byte>>)
    returns (ok: bool)
    requires Sent(wire.lines, base, all, done, [piece] + rest, true)
    modifies wire
    ensures ok == (old(wire.good) > 0) && wire.good == if ok then old(wire.good) - 1 else 0
    ensures Sent(wire.lines, base, all, done + 1, rest, ok)
  {
    SendingStep(all, done, piece, rest, base);
    ok := wire.Send(Chunk(piece));
  }

  method SendChunks(wire: Wire, e: seq<Byte>) returns (ok: bool)
    modifies wire
    ensures wire.lines == old(wire.lines) + Attempted(Marked(Chunks(e)), old(wire.good))
    ensures ok == (old(wire.good) >= |Chunks(e)|)
  {
    var i: nat := 0;
    ok := true;
    ghost var done: nat, base, all := 0, wire.lines, Marked(Chunks(e));
    assert e[0..] == e;
    while ok && i < |e|
      invariant i % CHUNK == 0 && Sent(wire.lines, base, all, done, Remaining(e, i), ok)
      invariant if ok then wire.good == old(wire.good) - done else done == old(wire.good) + 1
      decreases |e| - i, ok
    {
      NextPiece(e, i);
      ok := SendPiece(wire, e[i..if |e| - i > CHUNK then i + CHUNK else |e|], base, all, done, Remaining(e, i + CHUNK));
      done := done + 1;
      i := i + CHUNK;
    }
    if ok && |e| % CHUNK == 0 {
      ok := SendPiece(wire, [PLUS], base, all, done, []);
    }
    assert all[..|all|] == all;
  }

  class Connection {
    const creds: Credentials
    const wire: Wire
    var negotiating: bool
    var wait: bool
    var answered: bool
    var requested: bool
    var deadline: nat
    var listing: bool
    var listingEnabled: bool
    var capabilities: map<string, string>
    var enabled: map<string, string>
    var requests: string

    ghost function Now(): State
      reads this
    {
      State(negotiating, wait, answered, requested, deadline, listing, listingEnabled, capabilities, enabled, requests)
    }

    /** A new connection, or one whose state has been reset. */
    constructor (creds: Credentials, wire: Wire)
      ensures this.creds == creds && this.wire == wire && Now() == FRESH
    {
      this.creds, this.wire := creds, wire;
      negotiating, wait, answered, requested, deadline := true, false, false, false, 0;
      listing, listingEnabled, capabilities, enabled, requests := false, false, map[], map[], "";
    }

    method End()
      modifies this, wire
      ensures Now() == Finish(old(Now())).state && wire.lines == old(wire.lines) + Finish(old(Now())).lines
    {
      wait, deadline := false, 0;
      if negotiating {
        var _ := wire.Send(CapEnd);
        negotiating := false;
      }
    }

    /** The server's prompt is answered once; anything else aborts. */
    method Prompted(plus: bool, now: nat)
      modifies this, wire
      ensures var o := Step(old(Now()), creds, Authenticate(plus), now, old(wire.good));
              Now() == o.state && wire.lines == old(wire.lines) + o.lines
    {
      if !wait {
        return;
      }
      var ok := false;
      ghost var tried := [];
      if !answered && plus {
        tried := Attempted(Spoken(creds), wire.good);
        ok := Respond(wire, creds);
      }
      assert wire.lines == old(wire.lines) + tried;
      if ok {
        answered := true;
      } else {
        var _ := wire.Send(Abort);
        End();
      }
    }

    method Verdict(success: bool, now: nat)
      modifies this, wire
      ensures var o := Step(old(Now()), creds, if success then Success else Failure, now, old(wire.good));
              Now() == o.state && wire.lines == old(wire.lines) + o.lines
    {
      if wait {
        End();
      }
    }

    method Unsupported()
      modifies this
      ensures Now() == Step(old(Now()), creds, NoSuchCommand, 0, 0).state
    {
      negotiating := false;
    }

    method Tick(now: nat)
      modifies this, wire
      ensures var o := Step(old(Now()), creds, Poll, now, old(wire.good));
              Now() == o.state && wire.lines == old(wire.lines) + o.lines
    {
      if deadline > 0 && now >= deadline {
        if wait {
          var _ := wire.Send(Abort);
        }
        End();
      }
    }

    method Capabilities(command: Command, more: bool, tokens: seq<Token>, now: nat)
      modifies this, wire
      ensures var o := Step(old(Now()), creds, Cap(command, more, tokens), now, old(wire.good));
              Now() == o.state && wire.lines == old(wire.lines) + o.lines
    {
      Begin(command, more);
      Words(command, tokens, now);
      Next(command, more, now);
    }

    method Begin(command: Command, more: bool)
      modifies this
      ensures Now() == BeginList(old(Now()), command, more)
    {
      if command == Ls && !listing {
        capabilities, requests := map[], "";
      }
      if command == List && !listingEnabled {
        enabled := map[];
      }
      if command == Ls {
        listing := more;
      }
      if command == List {
        listingEnabled := more;
      }
    }

    method Words(command: Command, tokens: seq<Token>, now: nat)
      modifies this
      ensures Now() == ApplyTokens(old(Now()), command, tokens, Configured(creds), now)
    {
      var i := 0;
      while i < |tokens|
        invariant i <= |tokens|
        invariant ApplyTokens(Now(), command, tokens[i..], Configured(creds), now)
               == ApplyTokens(old(Now()), command, tokens, Configured(creds), now)
      {
        Word(command, tokens[i], now);
        assert tokens[i..][1..] == tokens[i + 1..];
        i := i + 1;
      }
    }

    method Word(command: Command, t: Token, now: nat)
      modifies this
      ensures Now() == ApplyToken(old(Now()), command, t, Configured(creds), now)
    {
      if t.name == "" || |t.name| > NAME_MAX {
        return;
      }
      Record(command, t);
      if t.name == "sasl" && command == Ls && Configured(creds) {
        requested, deadline := true, now + TIMEOUT;
      }
      if command == Ls && !t.remove
         && (SameWord(t.name, "rustyrig") || SameWord(t.name, "multi-prefix") || (t.name == "sasl" && Configured(creds))) {
        requests := Request(requests, t.name);
      }
    }

    method Record(command: Command, t: Token)
      modifies this`capabilities, this`enabled
      ensures capabilities == Offered(old(capabilities), command, t)
      ensures enabled == Enabled(old(enabled), command, t)
    {
      if command == Ls || command == New {
        capabilities := if t.remove then capabilities - {t.name} else capabilities[t.name := t.value];
      } else if command == Del {
        capabilities, enabled := capabilities - {t.name}, enabled - {t.name};
      } else if command == Ack || command == List {
        enabled := if t.remove then enabled - {t.name} else enabled[t.name := t.value];
      } else if command == Nak {
        enabled := enabled - {t.name};
      }
    }

    method Next(command: Command, more: bool, now: nat)
      modifies this, wire
      ensures var o := Decide(old(Now()), creds, command, more, now, old(wire.good));
              Now() == o.state && wire.lines == old(wire.lines) + o.lines
    {
      if negotiating && command == Ls && !more {
        if requests != "" {
          var _ := wire.Send(CapReq(requests));
        } else {
          var _ := wire.Send(CapEnd);
          negotiating := false;
        }
      } else if negotiating && (command == Ack || command == Nak) {
        if command == Ack && requested && "sasl" !in enabled {
          return;
        }
        if wait {
          return;
        }
        if command == Ack && Configured(creds) && "sasl" in enabled {
          var started := wire.Send(Mechanism(creds.external));
          if started {
            wait, deadline := true, now + TIMEOUT;
          } else {
            End();
          }
        } else {
          End();
        }
      }
    }
  }
}
