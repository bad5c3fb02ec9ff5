/** The manager's side of a child's output: parsing what has arrived, trimming
    decoded sound to the latest 100 ms, and caching stream headers for replay. */
module ManagerReader {
  import opened MediaFraming
  import opened PcmBacklog

  const HEADER_CACHE: nat := 256 * 1024
  const READ_SIZE: nat := 16384

  // ---------------------------------------------------------------- the latest 100 ms

  predicate GoodTap(f: Frame) {
    f.tap && !f.header && |f.payload| % 2 == 0
  }

  function TapBytes(frames: seq<Frame>): seq<Byte> {
    if frames == [] then [] else (if GoodTap(frames[0]) then frames[0].payload else []) + TapBytes(frames[1..])
  }

  /** How many bytes of newer sound a buffer already holds, counting no further than the backlog. */
  function Newer(b: seq<Byte>, bytes: nat): nat
    decreases |b|
  {
    if |b| < HEADER || LengthOf(b) == 0 || LengthOf(b) > |b| - HEADER then bytes
    else
      var f, rest := FrontFrame(b), b[HEADER + LengthOf(b)..];
      if GoodTap(f) then
        if bytes + |f.payload| >= BACKLOG then BACKLOG else Newer(rest, bytes + |f.payload|)
      else Newer(rest, bytes)
  }

  function Min(a: nat, b: nat): nat {
    if a <= b then a else b
  }

  /** The part of a tap frame that is still among the latest 100 ms, given how much newer sound follows it. */
  function Trimmed(f: Frame, newer: nat): seq<Byte> {
    TakeLast(f.payload, Min(BACKLOG - Min(newer, BACKLOG), |f.payload|))
  }

  /** Looking ahead over frame lengths counts the sound that the parse will find, in any buffer
      too small to hold a frame of forbidden length. */
  lemma {:induction false} NewerCounts(b: seq<Byte>, bytes: nat)
    requires |b| <= MAX_FRAME && bytes < BACKLOG
    ensures Newer(b, bytes) == Min(BACKLOG, bytes + |TapBytes(Parse(b, 1).frames)|)
    decreases |b|
  {
    if FrontReady(b, 1) {
      var f, rest := FrontFrame(b), b[HEADER + LengthOf(b)..];
      ParseFront(b, 1);
      assert ([f] + Parse(rest, 1).frames)[1..] == Parse(rest, 1).frames;
      if !GoodTap(f) {
        NewerCounts(rest, bytes);
      } else if bytes + |f.payload| < BACKLOG {
        NewerCounts(rest, bytes + |f.payload|);
      }
    }
  }

  lemma {:induction false} NewerBounded(b: seq<Byte>, bytes: nat)
    requires bytes <= BACKLOG
    ensures bytes <= Newer(b, bytes) <= BACKLOG
    decreases |b|
  {
    if |b| >= HEADER && LengthOf(b) != 0 && LengthOf(b) <= |b| - HEADER {
      var f, rest := FrontFrame(b), b[HEADER + LengthOf(b)..];
      if !GoodTap(f) {
        NewerBounded(rest, bytes);
      } else if bytes + |f.payload| < BACKLOG {
        NewerBounded(rest, bytes + |f.payload|);
      }
    }
  }

  // ---------------------------------------------------------------- stream headers

  type Cache = c: seq<Byte> | |c| <= HEADER_CACHE witness []

  predicate HasRoom(cache: Cache, packet: seq<Byte>) {
    HEADER + |packet| <= HEADER_CACHE - |cache|
  }

  /** The cache of length-framed header packets after one more packet, if it still fits. */
  function Cached(cache: Cache, packet: seq<Byte>): Cache {
    if HasRoom(cache, packet) then cache + WordBytes(|packet|) + packet else cache
  }

  /** The packets that a replay of the cache sends. */
  function Replayed(cache: seq<Byte>): seq<seq<Byte>>
    decreases |cache|
  {
    if |cache| < HEADER then []
    else
      var len := WordOf(cache);
      if len > |cache| - HEADER then []
      else [cache[HEADER..HEADER + len]] + Replayed(cache[HEADER + len..])
  }

  function CacheRun(cache: Cache, packets: seq<seq<Byte>>): Cache
    decreases |packets|
  {
    if packets == [] then cache else CacheRun(Cached(cache, packets[0]), packets[1..])
  }

  /** The packets for which the cache had room. */
  function Kept(cache: Cache, packets: seq<seq<Byte>>): seq<seq<Byte>>
    decreases |packets|
  {
    if packets == [] then [] else KeptOne(cache, packets[0]) + Kept(Cached(cache, packets[0]), packets[1..])
  }

  function KeptOne(cache: Cache, packet: seq<Byte>): seq<seq<Byte>> {
    if HasRoom(cache, packet) then [packet] else []
  }

  ghost predicate WellCached(cache: seq<Byte>)
    decreases |cache|
  {
    cache == [] ||
    (|cache| >= HEADER && WordOf(cache) <= |cache| - HEADER && WellCached(cache[HEADER + WordOf(cache)..]))
  }

  /** A packet as it stands in the cache. */
  function Entry(packet: seq<Byte>): seq<Byte>
    requires |packet| <= HEADER_CACHE
  {
    WordBytes(|packet|) + packet
  }

  lemma OneEntry(packet: seq<Byte>)
    requires |packet| <= HEADER_CACHE
    ensures WellCached(Entry(packet)) && Replayed(Entry(packet)) == [packet]
  {
    var all, n := Entry(packet), HEADER + |packet|;
    assert all[..HEADER] == WordBytes(|packet|);
    assert WordOf(all) == |packet| && all[HEADER..n] == packet && all[n..] == [];
  }

  lemma EntriesBehind(cache: seq<Byte>, tail: seq<Byte>)
    requires |cache| >= HEADER && WordOf(cache) <= |cache| - HEADER
    ensures var n := HEADER + WordOf(cache);
            && Replayed(cache + tail) == [cache[HEADER..n]] + Replayed(cache[n..] + tail)
            && (WellCached(cache[n..] + tail) ==> WellCached(cache + tail))
  {
    var all, n := cache + tail, HEADER + WordOf(cache);
    assert WordOf(all) == WordOf(cache);
    assert all[HEADER..n] == cache[HEADER..n] && all[n..] == cache[n..] + tail;
  }

  lemma {:induction false} ReplayAppends(cache: seq<Byte>, packet: seq<Byte>)
    requires WellCached(cache) && |packet| <= HEADER_CACHE
    ensures WellCached(cache + Entry(packet))
    ensures Replayed(cache + Entry(packet)) == Replayed(cache) + [packet]
    decreases |cache|
  {
    OneEntry(packet);
    if cache == [] {
      assert cache + Entry(packet) == Entry(packet);
    } else {
      var n := HEADER + WordOf(cache);
      EntriesBehind(cache, Entry(packet));
      ReplayAppends(cache[n..], packet);
      JoinThree([cache[HEADER..n]], Replayed(cache[n..]), [packet]);
    }
  }

  lemma CacheStep(cache: Cache, packet: seq<Byte>)
    requires WellCached(cache)
    ensures WellCached(Cached(cache, packet))
    ensures Replayed(Cached(cache, packet)) == Replayed(cache) + KeptOne(cache, packet)
  {
    if HasRoom(cache, packet) {
      ReplayAppends(cache, packet);
      JoinThree(cache, WordBytes(|packet|), packet);
    } else {
      assert Replayed(cache) + [] == Replayed(cache);
    }
  }

  /** A replay sends exactly the cached header packets, in the order they arrived. */
  lemma {:induction false} ReplayIsFaithful(cache: Cache, packets: seq<seq<Byte>>)
    requires WellCached(cache)
    ensures Replayed(CacheRun(cache, packets)) == Replayed(cache) + Kept(cache, packets)
    decreases |packets|
  {
    if packets == [] {
      assert Replayed(cache) + [] == Replayed(cache);
    } else {
      var next := Cached(cache, packets[0]);
      CacheStep(cache, packets[0]);
      ReplayIsFaithful(next, packets[1..]);
      JoinThree(Replayed(cache), KeptOne(cache, packets[0]), Kept(next, packets[1..]));
    }
  }

  // ---------------------------------------------------------------- what the parse hands on

  /** The child a stream comes from: a codec process or a PCM processor, and who listens to it. */
  datatype Source =
    | Codec(isTx: bool, hasOutput: bool, subscribed: bool)
    | Processor(playback: bool, hasOutput: bool)

  datatype Event = Pcm(bytes: seq<Byte>) | Setup(packet: seq<Byte>) | Media(data: seq<Byte>)

  /** Cached headers, and whether they are to be replayed before the next packet. */
  datatype Headers = Headers(cache: Cache, replay: bool)

  function SetupAll(packets: seq<seq<Byte>>): (r: seq<Event>)
    ensures |r| == |packets| && forall i :: 0 <= i < |r| ==> r[i] == Setup(packets[i])
  {
    seq(|packets|, i requires 0 <= i < |packets| => Setup(packets[i]))
  }

  /** What one frame causes, given how much newer sound lies behind it in the buffer. */
  function Handled(source: Source, h: Headers, f: Frame, newer: nat): (seq<Event>, Headers) {
    if f.tap then
      if GoodTap(f) && source.Codec? && !source.isTx && source.hasOutput && Trimmed(f, newer) != [] then
        ([Pcm(Trimmed(f, newer))], h)
      else ([], h)
    else if source.Processor? then
      if !f.header && |f.payload| % 2 == 0 && !source.playback && source.hasOutput then ([Pcm(f.payload)], h)
      else ([], h)
    else
      var cache := if f.header then Cached(h.cache, f.payload) else h.cache;
      if source.subscribed then (Announced(cache, h.replay) + [Forwarded(f)], Headers(cache, false))
      else ([], Headers(cache, h.replay))
  }

  function Announced(cache: Cache, replay: bool): seq<Event> {
    if replay then SetupAll(Replayed(cache)) else []
  }

  function Forwarded(f: Frame): Event {
    if f.header then Setup(f.payload) else Media(f.payload)
  }

  datatype Result = Result(events: seq<Event>, headers: Headers, rest: seq<Byte>)

  /** What one pass over the buffer causes; a length no writer sends makes it drop everything it holds. */
  function Dispatch(source: Source, h: Headers, b: seq<Byte>): Result
    decreases |b|
  {
    if FrontReady(b, 1) then
      var rest := b[HEADER + LengthOf(b)..];
      var (events, next) := Handled(source, h, FrontFrame(b), Newer(rest, 0));
      var r := Dispatch(source, next, rest);
      r.(events := events + r.events)
    else Result([], h, if Parse(b, 1).bad then [] else b)
  }

  function PcmBytes(events: seq<Event>): seq<Byte> {
    if events == [] then [] else (if events[0].Pcm? then events[0].bytes else []) + PcmBytes(events[1..])
  }

  lemma {:induction false} PcmBytesSplit(a: seq<Event>, b: seq<Event>)
    ensures PcmBytes(a + b) == PcmBytes(a) + PcmBytes(b)
    decreases |a|
  {
    if a == [] {
      assert a + b == b;
    } else {
      FirstThenRest(a, b);
      assert (a + b)[1..] == a[1..] + b;
      PcmBytesSplit(a[1..], b);
    }
  }

  lemma {:induction false} SetupsAreSilent(packets: seq<seq<Byte>>)
    ensures PcmBytes(SetupAll(packets)) == []
    decreases |packets|
  {
    if packets != [] {
      assert SetupAll(packets)[1..] == SetupAll(packets[1..]);
      SetupsAreSilent(packets[1..]);
    }
  }

  lemma SuffixGrows<T>(a: seq<T>, b: seq<T>, n: nat)
    ensures TakeLast(a + b, n) == TakeLast(a, Min(n - Min(n, |b|), |a|)) + TakeLast(b, n)
  {
  }

  predicate IsDecoder(source: Source) {
    source.Codec? && !source.isTx && source.hasOutput
  }

  predicate WholePcm(events: seq<Event>) {
    forall e :: e in events && e.Pcm? ==> e.bytes != [] && |e.bytes| % 2 == 0
  }

  /** The sound one frame hands to the listener of a decoder. */
  lemma HandledSound(source: Source, h: Headers, f: Frame, newer: nat)
    requires IsDecoder(source) && newer % 2 == 0
    ensures PcmBytes(Handled(source, h, f, newer).0) == if GoodTap(f) then Trimmed(f, newer) else []
    ensures WholePcm(Handled(source, h, f, newer).0)
  {
    if f.tap {
      if GoodTap(f) && Trimmed(f, newer) != [] {
        OnePcm(Trimmed(f, newer));
      }
    } else {
      AnnouncedIsSilent(if f.header then Cached(h.cache, f.payload) else h.cache, h.replay, Forwarded(f));
    }
  }

  lemma OnePcm(bytes: seq<Byte>)
    requires bytes != [] && |bytes| % 2 == 0
    ensures PcmBytes([Pcm(bytes)]) == bytes && WholePcm([Pcm(bytes)])
  {
    assert [Pcm(bytes)][1..] == [];
  }

  lemma AnnouncedIsSilent(cache: Cache, replay: bool, e: Event)
    requires !e.Pcm?
    ensures PcmBytes(Announced(cache, replay) + [e]) == []
    ensures forall x :: x in Announced(cache, replay) + [e] ==> !x.Pcm?
  {
    PcmBytesSplit(Announced(cache, replay), [e]);
    SetupsAreSilent(Replayed(cache));
    assert [e][1..] == [];
  }

  lemma NewerUnfolds(b: seq<Byte>, bytes: nat)
    requires |b| >= HEADER && 0 < LengthOf(b) <= |b| - HEADER
    ensures var f, behind := FrontFrame(b), b[HEADER + LengthOf(b)..];
            && |f.payload| == LengthOf(b)
            && Newer(b, bytes) == if !GoodTap(f) then Newer(behind, bytes)
                                  else if bytes + LengthOf(b) >= BACKLOG then BACKLOG else Newer(behind, bytes + LengthOf(b))
  {
  }

  lemma BehindSlice<T>(b: seq<T>, i: nat, n: nat)
    requires i + n <= |b|
    ensures b[i..][n..] == b[i + n..]
  {
  }

  /** One step of the look-ahead: the frame in front and what is behind it, or nothing more. */
  lemma NewerFront(b: seq<Byte>, bytes: nat) returns (more: bool, f: Frame, rest: seq<Byte>)
    ensures !more ==> Newer(b, bytes) == bytes
    ensures more ==> |rest| < |b|
    ensures more && !GoodTap(f) ==> Newer(b, bytes) == Newer(rest, bytes)
    ensures more && GoodTap(f) ==>
              Newer(b, bytes) == if bytes + |f.payload| >= BACKLOG then BACKLOG else Newer(rest, bytes + |f.payload|)
  {
    more, f, rest := |b| >= HEADER && 0 < LengthOf(b) <= |b| - HEADER, Frame(false, false, false, []), [];
    if more {
      f, rest := FrontFrame(b), b[HEADER + LengthOf(b)..];
    }
  }

  lemma {:induction false} NewerIsWhole(b: seq<Byte>, bytes: nat)
    requires bytes % 2 == 0
    ensures Newer(b, bytes) % 2 == 0
    decreases |b|
  {
    var more, f, rest := NewerFront(b, bytes);
    if more {
      if GoodTap(f) {
        EvenSum(bytes, |f.payload|);
        NewerIsWhole(rest, bytes + |f.payload|);
      } else {
        NewerIsWhole(rest, bytes);
      }
    }
  }

  lemma EvenSum(a: nat, b: nat)
    requires a % 2 == 0 && b % 2 == 0
    ensures (a + b) % 2 == 0
  {
  }

  lemma DispatchFront(source: Source, h: Headers, b: seq<Byte>)
    requires FrontReady(b, 1)
    ensures var rest := b[HEADER + LengthOf(b)..];
            var (events, next) := Handled(source, h, FrontFrame(b), Newer(rest, 0));
            var r := Dispatch(source, next, rest);
            Dispatch(source, h, b) == Result(events + r.events, r.headers, r.rest)
  {
  }

  function After(events: seq<Event>, r: Result): Result {
    Result(events + r.events, r.headers, r.rest)
  }

  lemma DispatchBehind(events: seq<Event>, source: Source, h: Headers, b: seq<Byte>)
    requires FrontReady(b, 1)
    ensures var rest := b[HEADER + LengthOf(b)..];
            var (more, next) := Handled(source, h, FrontFrame(b), Newer(rest, 0));
            After(events, Dispatch(source, h, b)) == After(events + more, Dispatch(source, next, rest))
  {
    var rest := b[HEADER + LengthOf(b)..];
    var (more, next) := Handled(source, h, FrontFrame(b), Newer(rest, 0));
    DispatchFront(source, h, b);
    JoinThree(events, more, Dispatch(source, next, rest).events);
  }

  lemma DispatchEnds(events: seq<Event>, source: Source, h: Headers, b: seq<Byte>)
    ensures !FrontReady(b, 1) ==>
              After(events, Dispatch(source, h, b)) ==
              Result(events, h, if |b| >= HEADER && !LengthOk(LengthOf(b), 1) then [] else b)
  {
    assert events + [] == events;
  }

  lemma TapBytesFront(f: Frame, frames: seq<Frame>)
    ensures TapBytes([f] + frames) == (if GoodTap(f) then f.payload else []) + TapBytes(frames)
  {
    assert ([f] + frames)[1..] == frames;
  }

  predicate SoundIs(events: seq<Event>, sound: seq<Byte>) {
    PcmBytes(events) == TakeLast(sound, 3200) && WholePcm(events)
  }

  lemma {:induction false} LatestSoundWithin(source: Source, h: Headers, b: seq<Byte>)
    requires IsDecoder(source) && FrontReady(b, 1) ==> |b| - HEADER - LengthOf(b) <= MAX_FRAME
    requires IsDecoder(source)
    ensures SoundIs(Dispatch(source, h, b).events, TapBytes(Parse(b, 1).frames))
    decreases |b|
  {
    if FrontReady(b, 1) {
      var f, rest := FrontFrame(b), b[HEADER + LengthOf(b)..];
      var newer, frames := Newer(rest, 0), Parse(rest, 1).frames;
      var next := Handled(source, h, f, newer).1;
      NewerIsWhole(rest, 0);
      NewerCounts(rest, 0);
      LatestSoundWithin(source, next, rest);
      LatestSoundStep(source, h, f, newer, frames, Dispatch(source, next, rest).events);
      ParseFront(b, 1);
      DispatchFront(source, h, b);
    }
  }

  lemma LatestSoundStep(source: Source, h: Headers, f: Frame, newer: nat, frames: seq<Frame>, later: seq<Event>)
    requires IsDecoder(source) && newer % 2 == 0 && newer == Min(BACKLOG, |TapBytes(frames)|)
    requires SoundIs(later, TapBytes(frames))
    ensures SoundIs(Handled(source, h, f, newer).0 + later, TapBytes([f] + frames))
  {
    TapBytesFront(f, frames);
    HandledSound(source, h, f, newer);
    SoundBehind(Handled(source, h, f, newer).0, later, if GoodTap(f) then f.payload else [], TapBytes(frames));
  }

  lemma SoundBehind(a: seq<Event>, b: seq<Event>, mine: seq<Byte>, later: seq<Byte>)
    requires PcmBytes(a) == TakeLast(mine, Min(BACKLOG - Min(BACKLOG, |later|), |mine|))
    requires WholePcm(a) && SoundIs(b, later)
    ensures SoundIs(a + b, mine + later)
  {
    PcmBytesSplit(a, b);
    SuffixGrows(mine, later, BACKLOG);
  }

  /** Although every frame is trimmed on its own by looking ahead, what the listener of a decoder gets from one buffer
      is the last 100 ms of all the sound in it, in whole samples: for whatever an earlier pass kept and one more read. */
  lemma LatestSoundOnly(source: Source, h: Headers, kept: seq<Byte>, read: seq<Byte>)
    requires IsDecoder(source) && Parse(kept, 1) == Parsed([], kept, false) && |read| <= READ_SIZE
    ensures SoundIs(Dispatch(source, h, kept + read).events, TapBytes(Parse(kept + read, 1).frames))
  {
    if |kept| >= HEADER {
      FrontStays(kept, read, 1);
    }
    LatestSoundWithin(source, h, kept + read);
  }

  /** What a pass keeps is what the next pass may start from. */
  lemma {:induction false} PassKeepsIncomplete(source: Source, h: Headers, b: seq<Byte>)
    ensures var r := Dispatch(source, h, b).rest;
            r == (if Parse(b, 1).bad then [] else Parse(b, 1).rest) && Parse(r, 1) == Parsed([], r, false)
    decreases |b|
  {
    if FrontReady(b, 1) {
      var rest := b[HEADER + LengthOf(b)..];
      ParseFront(b, 1);
      DispatchFront(source, h, b);
      PassKeepsIncomplete(source, Handled(source, h, FrontFrame(b), Newer(rest, 0)).1, rest);
    }
  }

  // ---------------------------------------------------------------- encoded streams

  function Packets(frames: seq<Frame>): seq<Event> {
    if frames == [] then [] else OwnPacket(frames[0]) + Packets(frames[1..])
  }

  function OwnPacket(f: Frame): seq<Event> {
    if f.tap then [] else [Forwarded(f)]
  }

  /** The stream headers among some frames. */
  function HeaderPackets(frames: seq<Frame>): seq<seq<Byte>> {
    if frames == [] then [] else OwnHeader(frames[0]) + HeaderPackets(frames[1..])
  }

  function OwnHeader(f: Frame): seq<seq<Byte>> {
    if !f.tap && f.header then [f.payload] else []
  }

  lemma PacketsFront(f: Frame, frames: seq<Frame>)
    ensures Packets([f] + frames) == OwnPacket(f) + Packets(frames)
    ensures HeaderPackets([f] + frames) == OwnHeader(f) + HeaderPackets(frames)
  {
    assert ([f] + frames)[1..] == frames;
  }

  lemma {:induction false} PacketsSplit(a: seq<Frame>, b: seq<Frame>)
    ensures Packets(a + b) == Packets(a) + Packets(b)
    ensures HeaderPackets(a + b) == HeaderPackets(a) + HeaderPackets(b)
    decreases |a|
  {
    if a == [] {
      assert a + b == b;
    } else {
      assert a + b == [a[0]] + (a[1..] + b);
      PacketsFront(a[0], a[1..] + b);
      PacketsSplit(a[1..], b);
      JoinThree(OwnPacket(a[0]), Packets(a[1..]), Packets(b));
      JoinThree(OwnHeader(a[0]), HeaderPackets(a[1..]), HeaderPackets(b));
    }
  }

  lemma {:induction false} CacheRunSplits(cache: Cache, a: seq<seq<Byte>>, b: seq<seq<Byte>>)
    ensures CacheRun(cache, a + b) == CacheRun(CacheRun(cache, a), b)
    decreases |a|
  {
    if a == [] {
      assert a + b == b;
    } else {
      assert (a + b)[1..] == a[1..] + b;
      CacheRunSplits(Cached(cache, a[0]), a[1..], b);
    }
  }

  /** The cache when the first packet among some frames is forwarded: a header is kept before it is sent. */
  function AtFirst(cache: Cache, frames: seq<Frame>): Cache {
    if frames == [] then cache
    else if frames[0].tap then AtFirst(cache, frames[1..])
    else CacheRun(cache, OwnHeader(frames[0]))
  }

  /** What the subscribers of an encoder are to get for some frames: all packets, behind the cached headers if those
      are to be replayed. */
  function Delivered(h: Headers, frames: seq<Frame>): seq<Event> {
    (if Packets(frames) == [] then [] else Announced(AtFirst(h.cache, frames), h.replay)) + Packets(frames)
  }

  /** The headers after some frames have been handed on. */
  function HeadersAfter(source: Source, h: Headers, frames: seq<Frame>): Headers
    requires source.Codec?
  {
    Headers(CacheRun(h.cache, HeaderPackets(frames)), h.replay && !(source.subscribed && Packets(frames) != []))
  }

  lemma CacheRunOne(cache: Cache, packet: seq<Byte>)
    ensures CacheRun(cache, [packet]) == Cached(cache, packet)
  {
    assert [packet][1..] == [];
  }

  lemma HandledHeaders(source: Source, h: Headers, f: Frame, newer: nat, frames: seq<Frame>)
    requires source.Codec?
    ensures HeadersAfter(source, Handled(source, h, f, newer).1, frames) == HeadersAfter(source, h, [f] + frames)
  {
    PacketsFront(f, frames);
    CacheRunSplits(h.cache, OwnHeader(f), HeaderPackets(frames));
    CacheRunOne(h.cache, f.payload);
  }

  /** A pass caches exactly the stream headers it parses, in order, as far as there is room; and a pending replay is
      done with the first packet that has a subscriber. */
  lemma {:induction false} PassCaches(source: Source, h: Headers, b: seq<Byte>)
    requires source.Codec?
    ensures Dispatch(source, h, b).headers == HeadersAfter(source, h, Parse(b, 1).frames)
    decreases |b|
  {
    if FrontReady(b, 1) {
      var f, rest := FrontFrame(b), b[HEADER + LengthOf(b)..];
      var newer := Newer(rest, 0);
      PassCaches(source, Handled(source, h, f, newer).1, rest);
      HandledHeaders(source, h, f, newer, Parse(rest, 1).frames);
      ParseFront(b, 1);
      DispatchFront(source, h, b);
    }
  }

  predicate IsEncoder(source: Source) {
    source.Codec? && source.isTx
  }

  lemma DeliveredFront(source: Source, h: Headers, f: Frame, newer: nat, frames: seq<Frame>)
    requires IsEncoder(source) && source.subscribed
    ensures var (events, next) := Handled(source, h, f, newer);
            events + Delivered(next, frames) == Delivered(h, [f] + frames)
  {
    PacketsFront(f, frames);
    CacheRunOne(h.cache, f.payload);
    assert ([f] + frames)[1..] == frames;
    var (events, next) := Handled(source, h, f, newer);
    if !f.tap {
      assert Delivered(next, frames) == Packets(frames);
      JoinThree(Announced(next.cache, h.replay), [Forwarded(f)], Packets(frames));
    }
  }

  /** Subscribers of an encoder get every packet of a pass, unchanged and in order, behind the cached headers if a
      replay was pending. */
  lemma {:induction false} EncodedStreamUntouched(source: Source, h: Headers, b: seq<Byte>)
    requires IsEncoder(source) && source.subscribed
    ensures Dispatch(source, h, b).events == Delivered(h, Parse(b, 1).frames)
    decreases |b|
  {
    if FrontReady(b, 1) {
      var f, rest := FrontFrame(b), b[HEADER + LengthOf(b)..];
      var newer := Newer(rest, 0);
      EncodedStreamUntouched(source, Handled(source, h, f, newer).1, rest);
      DeliveredFront(source, h, f, newer, Parse(rest, 1).frames);
      ParseFront(b, 1);
      DispatchFront(source, h, b);
    }
  }

  /** What goes to the subscribers of a channel, leaving out the sound for a decoder's own listener. */
  function Broadcast(events: seq<Event>): seq<Event> {
    if events == [] then [] else (if events[0].Pcm? then [] else [events[0]]) + Broadcast(events[1..])
  }

  lemma {:induction false} BroadcastSplits(a: seq<Event>, b: seq<Event>)
    ensures Broadcast(a + b) == Broadcast(a) + Broadcast(b)
    decreases |a|
  {
    if a == [] {
      assert a + b == b;
    } else {
      FirstThenRest(a, b);
      assert (a + b)[1..] == a[1..] + b;
      BroadcastSplits(a[1..], b);
      JoinThree(if a[0].Pcm? then [] else [a[0]], Broadcast(a[1..]), Broadcast(b));
    }
  }

  lemma {:induction false} AllBroadcast(events: seq<Event>)
    requires forall e :: e in events ==> !e.Pcm?
    ensures Broadcast(events) == events
    decreases |events|
  {
    if events != [] {
      AllBroadcast(events[1..]);
      assert events == [events[0]] + events[1..];
    }
  }

  lemma HandledBroadcast(source: Source, h: Headers, f: Frame, newer: nat, frames: seq<Frame>)
    requires source.Codec?
    ensures var (events, next) := Handled(source, h, f, newer);
            Broadcast(events) + (if source.subscribed then Delivered(next, frames) else []) ==
            if source.subscribed then Delivered(h, [f] + frames) else []
  {
    var (events, next) := Handled(source, h, f, newer);
    if f.tap {
      if events != [] {
        assert events[1..] == [];
      }
    } else {
      AllBroadcast(events);
    }
    if source.subscribed {
      var encoder := Codec(true, source.hasOutput, true);
      DeliveredFront(encoder, h, f, newer, frames);
    }
  }

  /** Whatever the codec, encoder or decoder: its subscribers get exactly the packets of a pass, behind the cached headers if a
      replay was pending; without subscribers nothing is sent. */
  lemma {:induction false} PassBroadcasts(source: Source, h: Headers, b: seq<Byte>)
    requires source.Codec?
    ensures Broadcast(Dispatch(source, h, b).events) == if source.subscribed then Delivered(h, Parse(b, 1).frames) else []
    decreases |b|
  {
    if FrontReady(b, 1) {
      var f, rest := FrontFrame(b), b[HEADER + LengthOf(b)..];
      var newer := Newer(rest, 0);
      var (events, next) := Handled(source, h, f, newer);
      PassBroadcasts(source, next, rest);
      HandledBroadcast(source, h, f, newer, Parse(rest, 1).frames);
      ParseFront(b, 1);
      DispatchFront(source, h, b);
      BroadcastSplits(events, Dispatch(source, next, rest).events);
    }
  }

  // ---------------------------------------------------------------- audio endpoints

  /** What the listener of an endpoint hears of some frames: the sound of every frame that is neither a tap nor a header
      nor cut within a sample. */
  function Captured(frames: seq<Frame>): seq<Event> {
    if frames == [] then []
    else OwnSound(frames[0]) + Captured(frames[1..])
  }

  /** A capturing endpoint's listener hears all its sound in order, a playback endpoint is silent, and neither caches
      anything. */
  lemma {:induction false} EndpointHeard(source: Source, h: Headers, b: seq<Byte>)
    requires source.Processor?
    ensures var r := Dispatch(source, h, b);
            && r.headers == h
            && r.events == if source.hasOutput && !source.playback then Captured(Parse(b, 1).frames) else []
    decreases |b|
  {
    if FrontReady(b, 1) {
      var f, rest := FrontFrame(b), b[HEADER + LengthOf(b)..];
      EndpointHeard(source, h, rest);
      ParseFront(b, 1);
      DispatchFront(source, h, b);
      CapturedFront(f, Parse(rest, 1).frames);
      HandledByEndpoint(source, h, f, Newer(rest, 0));
    }
  }

  function OwnSound(f: Frame): seq<Event> {
    if !f.tap && !f.header && |f.payload| % 2 == 0 then [Pcm(f.payload)] else []
  }

  lemma CapturedFront(f: Frame, frames: seq<Frame>)
    ensures Captured([f] + frames) == OwnSound(f) + Captured(frames)
  {
    assert ([f] + frames)[1..] == frames;
  }

  lemma HandledByEndpoint(source: Source, h: Headers, f: Frame, newer: nat)
    requires source.Processor?
    ensures Handled(source, h, f, newer) == (if source.hasOutput && !source.playback then OwnSound(f) else [], h)
  {
  }

  // ---------------------------------------------------------------- read after read

  /** A reader between two passes: its source, the headers it has cached, and the incomplete frame it keeps. */
  datatype Link = Link(source: Source, headers: Headers, kept: seq<Byte>)

  function Arrived(l: Link, read: seq<Byte>): (seq<Event>, Link) {
    var r := Dispatch(l.source, l.headers, l.kept + read);
    (r.events, Link(l.source, r.headers, r.rest))
  }

  function ArriveAll(l: Link, pieces: seq<seq<Byte>>): (seq<Event>, Link)
    decreases |pieces|
  {
    if pieces == [] then ([], l)
    else
      var (events, next) := Arrived(l, pieces[0]);
      var (more, last) := ArriveAll(next, pieces[1..]);
      (events + more, last)
  }

  /** The frames that the passes find; after a length no writer sends a pass starts afresh with the next read. */
  function Gathered(kept: seq<Byte>, pieces: seq<seq<Byte>>): seq<Frame>
    decreases |pieces|
  {
    if pieces == [] then []
    else
      var p := Parse(kept + pieces[0], 1);
      p.frames + Gathered(if p.bad then [] else p.rest, pieces[1..])
  }

  lemma {:induction false} DeliveredSplits(source: Source, h: Headers, a: seq<Frame>, b: seq<Frame>)
    requires IsEncoder(source) && source.subscribed
    ensures Delivered(h, a) + Delivered(HeadersAfter(source, h, a), b) == Delivered(h, a + b)
    decreases |a|
  {
    if a == [] {
      assert a + b == b;
    } else {
      var next := Handled(source, h, a[0], 0).1;
      assert a + b == [a[0]] + (a[1..] + b) && a == [a[0]] + a[1..];
      DeliveredFront(source, h, a[0], 0, a[1..]);
      DeliveredFront(source, h, a[0], 0, a[1..] + b);
      HandledHeaders(source, h, a[0], 0, a[1..]);
      DeliveredSplits(source, next, a[1..], b);
      JoinThree(Handled(source, h, a[0], 0).0, Delivered(next, a[1..]), Delivered(HeadersAfter(source, next, a[1..]), b));
    }
  }

  lemma HeadersAfterSplit(source: Source, h: Headers, a: seq<Frame>, b: seq<Frame>)
    requires source.Codec?
    ensures HeadersAfter(source, HeadersAfter(source, h, a), b) == HeadersAfter(source, h, a + b)
  {
    PacketsSplit(a, b);
    CacheRunSplits(h.cache, HeaderPackets(a), HeaderPackets(b));
  }

  lemma {:induction false} CacheRunWell(cache: Cache, packets: seq<seq<Byte>>)
    requires WellCached(cache)
    ensures WellCached(CacheRun(cache, packets))
    decreases |packets|
  {
    if packets != [] {
      CacheStep(cache, packets[0]);
      CacheRunWell(Cached(cache, packets[0]), packets[1..]);
    }
  }

  /** Nothing but whole packets is ever in the cache. */
  lemma {:induction false} PassKeepsCache(source: Source, h: Headers, b: seq<Byte>)
    requires WellCached(h.cache)
    ensures WellCached(Dispatch(source, h, b).headers.cache)
    decreases |b|
  {
    if source.Codec? {
      PassCaches(source, h, b);
      CacheRunWell(h.cache, HeaderPackets(Parse(b, 1).frames));
    } else if FrontReady(b, 1) {
      PassKeepsCache(source, h, b[HEADER + LengthOf(b)..]);
    }
  }

  /** Over any run of reads a codec's cache holds the stream headers among all frames so far, as far as there was room. */
  lemma {:induction false} RunCaches(l: Link, pieces: seq<seq<Byte>>)
    requires l.source.Codec?
    ensures var last := ArriveAll(l, pieces).1;
            last.source == l.source && last.headers == HeadersAfter(l.source, l.headers, Gathered(l.kept, pieces))
    decreases |pieces|
  {
    if pieces != [] {
      var p, next := Parse(l.kept + pieces[0], 1), Arrived(l, pieces[0]).1;
      PassCaches(l.source, l.headers, l.kept + pieces[0]);
      PassKeepsIncomplete(l.source, l.headers, l.kept + pieces[0]);
      RunCaches(next, pieces[1..]);
      HeadersAfterSplit(l.source, l.headers, p.frames, Gathered(next.kept, pieces[1..]));
    }
  }

  /** Over any run of reads the subscribers of an encoder get all packets of all frames, unchanged and in order, and
      if a replay was pending the cached headers before the first of them. */
  lemma {:induction false} RunDelivers(l: Link, pieces: seq<seq<Byte>>)
    requires IsEncoder(l.source) && l.source.subscribed
    ensures ArriveAll(l, pieces).0 == Delivered(l.headers, Gathered(l.kept, pieces))
    decreases |pieces|
  {
    if pieces != [] {
      var p, next := Parse(l.kept + pieces[0], 1), Arrived(l, pieces[0]).1;
      PassCaches(l.source, l.headers, l.kept + pieces[0]);
      EncodedStreamUntouched(l.source, l.headers, l.kept + pieces[0]);
      PassKeepsIncomplete(l.source, l.headers, l.kept + pieces[0]);
      RunDelivers(next, pieces[1..]);
      DeliveredSplits(l.source, l.headers, p.frames, Gathered(next.kept, pieces[1..]));
    }
  }

  /** While the writer behaves, the passes find what any reader of the stream receives. */
  lemma {:induction false} GatheredIsReceived(kept: seq<Byte>, pieces: seq<seq<Byte>>)
    requires !Receive(kept, pieces, 1).bad
    ensures Gathered(kept, pieces) == Receive(kept, pieces, 1).frames
    decreases |pieces|
  {
    if pieces != [] {
      GatheredIsReceived(Parse(kept + pieces[0], 1).rest, pieces[1..]);
    }
  }

  /** However the child's output is cut into reads, subscribers get the packets of exactly the frames it wrote. */
  lemma CutStreamDelivered(l: Link, frames: seq<Sent>, pieces: seq<seq<Byte>>)
    requires IsEncoder(l.source) && l.source.subscribed && l.kept == []
    requires AllOk(frames, 1) && Joined(pieces) == Wire(frames)
    ensures ArriveAll(l, pieces).0 == Delivered(l.headers, frames)
    ensures !l.headers.replay ==> ArriveAll(l, pieces).0 == Packets(frames)
  {
    RoundTrip(frames, pieces, 1);
    GatheredIsReceived([], pieces);
    RunDelivers(l, pieces);
    assert [] + Packets(frames) == Packets(frames);
  }

  /** The bytes that packets take in the cache. */
  function CacheSize(packets: seq<seq<Byte>>): nat {
    if packets == [] then 0 else HEADER + |packets[0]| + CacheSize(packets[1..])
  }

  /** Every packet is kept exactly if all of them fit together. */
  lemma {:induction false} AllKeptIff(cache: Cache, packets: seq<seq<Byte>>)
    ensures |Kept(cache, packets)| <= |packets|
    ensures Kept(cache, packets) == packets <==> |cache| + CacheSize(packets) <= 262_144
    decreases |packets|
  {
    if packets != [] {
      var next, rest := Cached(cache, packets[0]), packets[1..];
      AllKeptIff(next, rest);
      if HasRoom(cache, packets[0]) {
        assert packets == [packets[0]] + rest;
        assert Kept(cache, packets)[1..] == Kept(next, rest);
      }
    }
  }

  /** The packet that a replay before some frames repeats although it is only now being sent. */
  function FirstHeader(frames: seq<Frame>): seq<seq<Byte>> {
    if frames == [] then [] else if frames[0].tap then FirstHeader(frames[1..]) else OwnHeader(frames[0])
  }

  lemma {:induction false} AtFirstIsRun(cache: Cache, frames: seq<Frame>)
    ensures AtFirst(cache, frames) == CacheRun(cache, FirstHeader(frames))
    decreases |frames|
  {
    if frames != [] && frames[0].tap {
      AtFirstIsRun(cache, frames[1..]);
    }
  }

  /** What a resumed subscriber gets: an encoder has run, listened to or not, and is then resumed for a subscriber.
      With its next packet come all stream headers it has ever sent, as far as the cache had room, and from there on
      every packet. */
  lemma ResumedSubscriber(l: Link, before: seq<seq<Byte>>, after: seq<seq<Byte>>)
    requires IsEncoder(l.source) && l.headers.cache == []
    ensures var mid := ArriveAll(l, before).1;
            var resumed := mid.(source := l.source.(subscribed := true), headers := mid.headers.(replay := true));
            var sent, later := HeaderPackets(Gathered(l.kept, before)), Gathered(mid.kept, after);
            ArriveAll(resumed, after).0 ==
            if Packets(later) == [] then [] else SetupAll(Kept([], sent + FirstHeader(later))) + Packets(later)
  {
    var mid := ArriveAll(l, before).1;
    var resumed := mid.(source := l.source.(subscribed := true), headers := mid.headers.(replay := true));
    var sent, later := HeaderPackets(Gathered(l.kept, before)), Gathered(mid.kept, after);
    RunCaches(l, before);
    RunDelivers(resumed, after);
    AtFirstIsRun(mid.headers.cache, later);
    CacheRunSplits([], sent, FirstHeader(later));
    ReplayIsFaithful([], sent + FirstHeader(later));
    assert [] + Kept([], sent + FirstHeader(later)) == Kept([], sent + FirstHeader(later));
  }

  /** What a new listener is sent at once; if a replay is pending the headers come with the next packet anyway. */
  function Welcome(h: Headers): seq<Event> {
    if h.replay then [] else SetupAll(Replayed(h.cache))
  }

  /** A listener who joins a running encoder gets every cached header before its first packet, whether or not a replay
      was pending. */
  lemma JoinerHearsHeaders(l: Link, pieces: seq<seq<Byte>>)
    requires IsEncoder(l.source) && l.source.subscribed && WellCached(l.headers.cache)
    requires Packets(Gathered(l.kept, pieces)) != []
    ensures var h, frames := l.headers, Gathered(l.kept, pieces);
            var extra := if h.replay then Kept(h.cache, FirstHeader(frames)) else [];
            Welcome(h) + ArriveAll(l, pieces).0 == SetupAll(Replayed(h.cache) + extra) + Packets(frames)
  {
    var h, frames := l.headers, Gathered(l.kept, pieces);
    RunDelivers(l, pieces);
    if h.replay {
      AtFirstIsRun(h.cache, frames);
      ReplayIsFaithful(h.cache, FirstHeader(frames));
    } else {
      assert Replayed(h.cache) + [] == Replayed(h.cache);
      assert Delivered(h, frames) == Packets(frames);
    }
  }

  // ---------------------------------------------------------------- the reader object

  class Reader {
    var source: Source
    var recv: seq<Byte>
    var cache: Cache
    var replay: bool

    ghost predicate Valid()
      reads this
    {
      Parse(recv, 1) == Parsed([], recv, false) && WellCached(cache)
    }

    ghost function View(): Link
      reads this
    {
      Link(source, Headers(cache, replay), recv)
    }

    constructor (from: Source)
      ensures Valid() && View() == Link(from, Headers([], false), [])
    {
      source, recv, cache, replay := from, [], [], false;
    }

    /** Subscribers come or go, or the channel changes to another codec or back. */
    method Listen(subscribed: bool)
      requires Valid() && source.Codec?
      modifies this`source
      ensures Valid() && View() == old(View()).(source := old(source).(subscribed := subscribed))
    {
      source := source.(subscribed := subscribed);
    }

    /** The codec is woken up or switched back to: its headers are due again. */
    method Resume()
      requires Valid()
      modifies this`replay
      ensures Valid() && View() == old(View()).(headers := Headers(old(cache), true))
    {
      replay := true;
    }

    /** What a listener who joins now is sent at once. */
    method Greet() returns (events: seq<Event>)
      ensures events == Welcome(Headers(cache, replay))
    {
      events := [];
      if !replay {
        var packets := Replay();
        events := SetupAll(packets);
      }
    }

    /** One read from the child and one pass over what has arrived. */
    method Ready(read: seq<Byte>) returns (events: seq<Event>)
      requires Valid()
      modifies this`recv, this`cache, this`replay
      ensures Valid() && (events, View()) == Arrived(old(View()), read)
    {
      recv := recv + read;
      PassKeepsIncomplete(source, Headers(cache, replay), recv);
      PassKeepsCache(source, Headers(cache, replay), recv);
      events := ParseRead();
    }

    method ParseRead() returns (events: seq<Event>)
      modifies this`recv, this`cache, this`replay
      ensures var r := Dispatch(source, Headers(old(cache), old(replay)), old(recv));
              events == r.events && recv == r.rest && Headers(cache, replay) == r.headers
    {
      events := [];
      ghost var all := Dispatch(source, Headers(cache, replay), recv);
      assert [] + all.events == all.events;
      var more := true;
      while more
        invariant all == if more then After(events, Dispatch(source, Headers(cache, replay), recv))
                         else Result(events, Headers(cache, replay), recv)
        decreases more, |recv|
      {
        DispatchEnds(events, source, Headers(cache, replay), recv);
        if FrontReady(recv, 1) {
          DispatchBehind(events, source, Headers(cache, replay), recv);
        }
        var handled;
        more, handled := ParseFrame();
        events := events + handled;
      }
    }

    /** Takes the frame at the front of the buffer if it is complete; a forbidden length empties the buffer. */
    method ParseFrame() returns (more: bool, events: seq<Event>)
      modifies this`recv, this`cache, this`replay
      ensures more == FrontReady(old(recv), 1)
      ensures if more then
                && (events, Headers(cache, replay)) ==
                   Handled(source, Headers(old(cache), old(replay)), FrontFrame(old(recv)), Newer(recv, 0))
                && recv == old(recv)[HEADER + LengthOf(old(recv))..]
              else
                && events == [] && Headers(cache, replay) == Headers(old(cache), old(replay))
                && recv == if |old(recv)| >= HEADER && !LengthOk(LengthOf(old(recv)), 1) then [] else old(recv)
    {
      if |recv| < HEADER {
        return false, [];
      }
      var n := LengthOf(recv);
      if n == 0 || n > MAX_FRAME {
        recv := [];
        return false, [];
      }
      if |recv| < HEADER + n {
        return false, [];
      }
      more := true;
      events := HandleFrame(FrontFrame(recv), recv[HEADER + n..]);
      recv := recv[HEADER + n..];
    }

    /** Hands on one complete frame; `rest` is what lies behind it in the buffer. */
    method HandleFrame(f: Frame, rest: seq<Byte>) returns (events: seq<Event>)
      modifies this`cache, this`replay
      ensures (events, Headers(cache, replay)) == Handled(source, Headers(old(cache), old(replay)), f, Newer(rest, 0))
    {
      if f.tap {
        events := HandleTap(f, rest);
      } else if source.Processor? {
        events := if !f.header && |f.payload| % 2 == 0 && !source.playback && source.hasOutput then [Pcm(f.payload)] else [];
      } else {
        events := HandlePacket(f);
      }
    }

    method HandleTap(f: Frame, rest: seq<Byte>) returns (events: seq<Event>)
      requires f.tap
      ensures (events, Headers(cache, replay)) == Handled(source, Headers(cache, replay), f, Newer(rest, 0))
    {
      events := [];
      if !f.header && |f.payload| % 2 == 0 && source.Codec? && !source.isTx && source.hasOutput {
        NewerBounded(rest, 0);
        var newer := CountNewer(rest);
        var keep := BACKLOG - newer;
        if keep > |f.payload| {
          keep := |f.payload|;
        }
        if keep > 0 {
          events := [Pcm(f.payload[|f.payload| - keep..])];
        }
      }
    }

    method HandlePacket(f: Frame) returns (events: seq<Event>)
      requires !f.tap && source.Codec?
      modifies this`cache, this`replay
      ensures (events, Headers(cache, replay)) == Handled(source, Headers(old(cache), old(replay)), f, 0)
    {
      events := [];
      if f.header && HEADER + |f.payload| <= HEADER_CACHE - |cache| {
        cache := cache + WordBytes(|f.payload|) + f.payload;
      }
      if source.subscribed {
        if replay {
          var packets := Replay();
          events := SetupAll(packets);
          replay := false;
        }
        events := events + [if f.header then Setup(f.payload) else Media(f.payload)];
      }
    }

    /** Counts the newer sound behind a frame, stopping at the backlog. */
    method CountNewer(b: seq<Byte>) returns (bytes: nat)
      ensures bytes == Newer(b, 0)
    {
      bytes := 0;
      var position := 0;
      assert b[0..] == b;
      while position + HEADER <= |b|
        invariant position <= |b| && Newer(b[position..], bytes) == Newer(b, 0)
        decreases |b| - position
      {
        var done, size;
        done, bytes, size := CountFrame(b[position..], bytes);
        if done {
          return;
        }
        BehindSlice(b, position, size);
        position := position + size;
      }
    }

    /** The frame in front: nothing more to count, or so many bytes and the size of the frame. */
    method CountFrame(b: seq<Byte>, before: nat) returns (done: bool, bytes: nat, size: nat)
      requires |b| >= HEADER
      ensures done ==> bytes == Newer(b, before)
      ensures !done ==> HEADER <= size <= |b| && Newer(b[size..], bytes) == Newer(b, before)
    {
      var len := LengthOf(b);
      if len == 0 || len > |b| - HEADER {
        return true, before, 0;
      }
      NewerUnfolds(b, before);
      if !GoodTap(FrontFrame(b)) {
        return false, before, HEADER + len;
      }
      bytes := before + len;
      if bytes >= BACKLOG {
        return true, BACKLOG, 0;
      }
      return false, bytes, HEADER + len;
    }

    method Replay() returns (packets: seq<seq<Byte>>)
      ensures packets == Replayed(cache)
    {
      packets := [];
      var pos := 0;
      assert cache[0..] == cache && [] + Replayed(cache) == Replayed(cache);
      while pos + HEADER <= |cache|
        invariant pos <= |cache| && packets + Replayed(cache[pos..]) == Replayed(cache)
        decreases |cache| - pos
      {
        var len := WordOf(cache[pos..]);
        if len > |cache| - pos - HEADER {
          break;
        }
        var packet := cache[pos + HEADER..pos + HEADER + len];
        assert cache[pos..][HEADER..HEADER + len] == packet && cache[pos..][HEADER + len..] == cache[pos + HEADER + len..];
        JoinThree(packets, [packet], Replayed(cache[pos + HEADER + len..]));
        packets := packets + [packet];
        pos := pos + HEADER + len;
      }
      assert packets + [] == packets;
    }
  }
}
