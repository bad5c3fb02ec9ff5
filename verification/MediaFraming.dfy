/** The length-framed byte protocol between the manager and its media children:
    the writer's frames and the incremental parse that both readers share. */
module MediaFraming {

  type Byte = x: int | 0 <= x < 256

  const HEADER: nat := 4
  const MAX_FRAME: nat := 64 * 1024 * 1024
  const FLAG_HEADER: nat := 0x8000_0000
  const FLAG_TAP: nat := 0x4000_0000
  const FLAG_DISCONT: nat := 0x2000_0000

  /** A frame with the three flags of its length word: stream header, PCM tap and discontinuity. */
  datatype Frame = Frame(header: bool, tap: bool, discont: bool, payload: seq<Byte>)

  /** What a writer is willing to send. */
  type Sent = f: Frame | |f.payload| <= MAX_FRAME witness Frame(false, false, false, [])

  // ---------------------------------------------------------------- the length word

  function WordBytes(w: nat): (b: seq<Byte>)
    requires w < 0x1_0000_0000
    ensures |b| == HEADER && WordOf(b) == w
  {
    var b2 := w / 0x100;
    var b1 := b2 / 0x100;
    var b0 := b1 / 0x100;
    assert b1 == w / 0x1_0000 && b0 == w / 0x100_0000;
    assert w == b2 * 0x100 + w % 0x100 && b2 == b1 * 0x100 + b2 % 0x100 && b1 == b0 * 0x100 + b1 % 0x100;
    [b0, b1 % 0x100, b2 % 0x100, w % 0x100]
  }

  function WordOf(b: seq<Byte>): (w: nat)
    requires |b| >= HEADER
    ensures w < 0x1_0000_0000
  {
    (b[0] as int) * 0x100_0000 + (b[1] as int) * 0x1_0000 + (b[2] as int) * 0x100 + b[3] as int
  }

  function Bit(b: bool, value: nat): nat {
    if b then value else 0
  }

  /** The flags occupy the bits above the length, so joining them to it is addition. */
  function Word(f: Sent): nat {
    Bit(f.header, FLAG_HEADER) + Bit(f.tap, FLAG_TAP) + Bit(f.discont, FLAG_DISCONT) + |f.payload|
  }

  predicate HasFlag(w: nat, flag: nat)
    requires flag > 0
  {
    w / flag % 2 == 1
  }

  function LengthOf(b: seq<Byte>): nat
    requires |b| >= HEADER
  {
    WordOf(b) % FLAG_DISCONT
  }

  /** The frame at the front of a buffer that holds all of it. */
  function FrontFrame(b: seq<Byte>): Frame
    requires |b| >= HEADER && |b| >= HEADER + LengthOf(b)
  {
    var w := WordOf(b);
    Frame(HasFlag(w, FLAG_HEADER), HasFlag(w, FLAG_TAP), HasFlag(w, FLAG_DISCONT), b[HEADER..HEADER + LengthOf(b)])
  }

  /** What the writers put on the wire for a frame they accept. */
  function Encode(f: Sent): (b: seq<Byte>)
    ensures |b| == HEADER + |f.payload|
  {
    WordBytes(Word(f)) + f.payload
  }

  lemma FlagsOfWord(f: Sent)
    ensures var w := Word(f);
            && w % FLAG_DISCONT == |f.payload| && (HasFlag(w, FLAG_HEADER) <==> f.header)
            && (HasFlag(w, FLAG_TAP) <==> f.tap) && (HasFlag(w, FLAG_DISCONT) <==> f.discont)
  {
  }

  /** The four bytes in front of a payload: the three flags are the topmost bits of the first, and the length is in
      network order below them. */
  lemma WireFormat(f: Sent)
    ensures var b, n := Encode(f), |f.payload|;
            && |b| == 4 + n && b[4..] == f.payload
            && b[0] == (if f.header then 0x80 else 0) + (if f.tap then 0x40 else 0) + (if f.discont then 0x20 else 0) + n / 0x100_0000
            && b[1] == n / 0x1_0000 % 0x100 && b[2] == n / 0x100 % 0x100 && b[3] == n % 0x100
  {
    var n, top := |f.payload|, Bit(f.header, 0x80) + Bit(f.tap, 0x40) + Bit(f.discont, 0x20);
    FlagsOnTop(f, top);
    BytesOf(Word(f));
    WordParts(top, n);
    assert Encode(f)[..HEADER] == WordBytes(Word(f));
  }

  lemma FlagsOnTop(f: Sent, top: nat)
    requires top == Bit(f.header, 0x80) + Bit(f.tap, 0x40) + Bit(f.discont, 0x20)
    ensures Word(f) == top * 0x100_0000 + |f.payload| && Word(f) < 0x1_0000_0000
  {
  }

  lemma BytesOf(w: nat)
    requires w < 0x1_0000_0000
    ensures WordBytes(w) == [w / 0x100 / 0x100 / 0x100, w / 0x100 / 0x100 % 0x100, w / 0x100 % 0x100, w % 0x100]
  {
  }

  lemma Carry(k: nat, n: nat)
    ensures (k * 0x100 + n) / 0x100 == k + n / 0x100 && (k * 0x100 + n) % 0x100 == n % 0x100
  {
  }

  lemma WordParts(top: nat, n: nat)
    requires n <= MAX_FRAME
    ensures var w := top * 0x100_0000 + n;
            && w / 0x100 / 0x100 / 0x100 == top + n / 0x100_0000 && w / 0x100 / 0x100 % 0x100 == n / 0x1_0000 % 0x100
            && w / 0x100 % 0x100 == n / 0x100 % 0x100 && w % 0x100 == n % 0x100
  {
    var a := n / 0x100;
    var b := a / 0x100;
    Carry(top * 0x1_0000, n);
    Carry(top * 0x100, a);
    Carry(top, b);
    Flat(n);
  }

  lemma Flat(n: nat)
    ensures n / 0x1_0000 == n / 0x100 / 0x100 && n / 0x100_0000 == n / 0x100 / 0x100 / 0x100
  {
  }

  lemma FrontOfEncoded(f: Sent, rest: seq<Byte>)
    ensures LengthOf(Encode(f) + rest) == |f.payload|
    ensures FrontFrame(Encode(f) + rest) == f
    ensures (Encode(f) + rest)[HEADER + |f.payload|..] == rest
  {
    var b := Encode(f) + rest;
    assert b[..HEADER] == WordBytes(Word(f));
    assert WordOf(b) == Word(f);
    FlagsOfWord(f);
    assert b[HEADER..HEADER + |f.payload|] == f.payload;
  }

  // ---------------------------------------------------------------- the incremental parse

  /** A length a reader accepts; `unit` is the size of the sample frames a PCM endpoint must not split. */
  predicate LengthOk(len: nat, unit: nat)
    requires unit > 0
  {
    0 < len <= MAX_FRAME && len % unit == 0
  }

  /** Complete frames in order, the bytes after them, and whether those begin with a length no writer sends. */
  datatype Parsed = Parsed(frames: seq<Frame>, rest: seq<Byte>, bad: bool)

  predicate FrontReady(b: seq<Byte>, unit: nat)
    requires unit > 0
  {
    |b| >= HEADER && LengthOk(LengthOf(b), unit) && |b| >= HEADER + LengthOf(b)
  }

  function Parse(b: seq<Byte>, unit: nat): Parsed
    requires unit > 0
    decreases |b|
  {
    if FrontReady(b, unit) then
      var tail := Parse(b[HEADER + LengthOf(b)..], unit);
      tail.(frames := [FrontFrame(b)] + tail.frames)
    else Parsed([], b, |b| >= HEADER && !LengthOk(LengthOf(b), unit))
  }

  lemma FrontStays(a: seq<Byte>, b: seq<Byte>, unit: nat)
    requires unit > 0 && |a| >= HEADER
    ensures LengthOf(a + b) == LengthOf(a)
    ensures FrontReady(a, unit) ==>
              && FrontReady(a + b, unit) && FrontFrame(a + b) == FrontFrame(a)
              && (a + b)[HEADER + LengthOf(a)..] == a[HEADER + LengthOf(a)..] + b
  {
    assert WordOf(a + b) == WordOf(a);
    if FrontReady(a, unit) {
      assert (a + b)[HEADER..HEADER + LengthOf(a)] == a[HEADER..HEADER + LengthOf(a)];
    }
  }

  lemma ParseFront(a: seq<Byte>, unit: nat)
    requires unit > 0 && FrontReady(a, unit)
    ensures var tail := Parse(a[HEADER + LengthOf(a)..], unit);
            Parse(a, unit) == Parsed([FrontFrame(a)] + tail.frames, tail.rest, tail.bad)
  {
  }

  /** What a reader has after one more read. */
  function Continue(p: Parsed, b: seq<Byte>, unit: nat): Parsed
    requires unit > 0
  {
    var q := Parse(p.rest + b, unit);
    Parsed(p.frames + q.frames, q.rest, q.bad)
  }

  lemma ContinueBehind(f: Frame, p: Parsed, b: seq<Byte>, unit: nat)
    requires unit > 0
    ensures var q := Continue(p, b, unit);
            Continue(Parsed([f] + p.frames, p.rest, p.bad), b, unit) == Parsed([f] + q.frames, q.rest, q.bad)
  {
    var q := Parse(p.rest + b, unit);
    assert [f] + p.frames + q.frames == [f] + (p.frames + q.frames);
  }

  /** Parsing in two reads finds what parsing the joined bytes finds. */
  lemma {:induction false} ParseInParts(a: seq<Byte>, b: seq<Byte>, unit: nat)
    requires unit > 0 && !Parse(a, unit).bad
    ensures Parse(a + b, unit) == Continue(Parse(a, unit), b, unit)
    decreases |a|
  {
    if FrontReady(a, unit) {
      var n := HEADER + LengthOf(a);
      FrontStays(a, b, unit);
      ParseFront(a, unit);
      ParseFront(a + b, unit);
      ParseInParts(a[n..], b, unit);
      ContinueBehind(FrontFrame(a), Parse(a[n..], unit), b, unit);
    } else {
      assert [] + Parse(a + b, unit).frames == Parse(a + b, unit).frames;
    }
  }

  // ---------------------------------------------------------------- streams of frames

  function Wire(frames: seq<Sent>): seq<Byte> {
    if frames == [] then [] else Encode(frames[0]) + Wire(frames[1..])
  }

  predicate AllOk(frames: seq<Sent>, unit: nat)
    requires unit > 0
  {
    forall f :: f in frames ==> LengthOk(|f.payload|, unit)
  }

  /** A frame is read exactly if its payload is not empty and whole samples; any other makes the stream bad where it
      begins. */
  lemma FrameIsReadIff(f: Sent, rest: seq<Byte>, unit: nat)
    requires unit > 0
    ensures var tail := Parse(rest, unit);
            Parse(Encode(f) + rest, unit) ==
            if |f.payload| > 0 && |f.payload| % unit == 0 then Parsed([f] + tail.frames, tail.rest, tail.bad)
            else Parsed([], Encode(f) + rest, true)
  {
    FrontOfEncoded(f, rest);
    assert (Encode(f) + rest)[HEADER + |f.payload|..] == rest;
  }

  function Behind(frames: seq<Frame>, p: Parsed): Parsed {
    Parsed(frames + p.frames, p.rest, p.bad)
  }

  lemma BehindOne(frames: seq<Frame>, f: Frame, p: Parsed)
    ensures Behind(frames + [f], p) == Behind(frames, Behind([f], p))
  {
    assert frames + [f] + p.frames == frames + ([f] + p.frames);
  }

  lemma FirstThenRest<T>(s: seq<T>, t: seq<T>)
    requires s != []
    ensures [s[0]] + (s[1..] + t) == s + t
  {
  }

  lemma PartsOfRest<T>(s: seq<T>, k: nat)
    requires 0 < k <= |s|
    ensures s[..k][0] == s[0] && s[..k][1..] == s[1..][..k - 1] && s[1..][k - 1..] == s[k..]
  {
  }

  lemma JoinThree<T>(a: seq<T>, b: seq<T>, c: seq<T>)
    ensures a + (b + c) == a + b + c
  {
  }

  lemma CutBehind<T>(a: seq<T>, b: seq<T>, n: nat)
    requires |a| <= n <= |a| + |b|
    ensures (a + b)[..n] == a + b[..n - |a|] && (a + b)[n..] == b[n - |a|..]
  {
  }

  lemma ParseEncoded(f: Sent, rest: seq<Byte>, unit: nat)
    requires unit > 0 && LengthOk(|f.payload|, unit)
    ensures Parse(Encode(f) + rest, unit) == Behind([f], Parse(rest, unit))
  {
    FrontOfEncoded(f, rest);
    ParseFront(Encode(f) + rest, unit);
  }

  /** Frames on the wire are parsed in order, and then what follows them. */
  lemma {:induction false} ParseBehindFrames(frames: seq<Sent>, tail: seq<Byte>, unit: nat)
    requires unit > 0 && AllOk(frames, unit)
    ensures Parse(Wire(frames) + tail, unit) == Behind(frames, Parse(tail, unit))
    decreases |frames|
  {
    if frames == [] {
      assert Wire(frames) + tail == tail;
    } else {
      var f, rest := frames[0], Wire(frames[1..]) + tail;
      assert Wire(frames) + tail == Encode(f) + rest;
      assert f in frames;
      ParseEncoded(f, rest, unit);
      ParseBehindFrames(frames[1..], tail, unit);
      FirstThenRest<Frame>(frames, Parse(tail, unit).frames);
    }
  }

  /** Part of one frame is no frame, and nothing wrong either. */
  lemma PartOfFrame(f: Sent, m: nat, unit: nat)
    requires unit > 0 && LengthOk(|f.payload|, unit) && m < |Encode(f)|
    ensures Parse(Encode(f)[..m], unit) == Parsed([], Encode(f)[..m], false)
  {
    if m >= HEADER {
      FrontOfEncoded(f, []);
      assert Encode(f) + [] == Encode(f);
      assert WordOf(Encode(f)[..m]) == WordOf(Encode(f));
    }
  }

  /** Every position of a stream lies behind some whole frames and within the next one. */
  lemma {:induction false} Locate(frames: seq<Sent>, n: nat) returns (k: nat, m: nat)
    requires n <= |Wire(frames)|
    ensures k <= |frames| && if k == |frames| then m == 0 else m < |Encode(frames[k])|
    ensures Splits(frames, n, k, m)
    decreases |frames|
  {
    if frames == [] || n < |Encode(frames[0])| {
      k, m := 0, n;
      assert frames[0..] == frames;
    } else {
      var j;
      j, m := Locate(frames[1..], n - |Encode(frames[0])|);
      k := j + 1;
      SplitsBehind(frames, n, j, m);
    }
  }

  /** The first n bytes of the stream are k frames and m bytes of what follows. */
  ghost predicate Splits(frames: seq<Sent>, n: nat, k: nat, m: nat) {
    && k <= |frames| && n <= |Wire(frames)| && m <= |Wire(frames[k..])|
    && Wire(frames)[..n] == Wire(frames[..k]) + Wire(frames[k..])[..m]
    && Wire(frames)[n..] == Wire(frames[k..])[m..]
  }

  lemma SplitsBehind(frames: seq<Sent>, n: nat, j: nat, m: nat)
    requires frames != [] && |Encode(frames[0])| <= n && Splits(frames[1..], n - |Encode(frames[0])|, j, m)
    ensures Splits(frames, n, j + 1, m)
  {
    var tail := frames[1..];
    PartsOfRest(frames, j + 1);
    SplitMoves(Encode(frames[0]), Wire(tail), Wire(tail[..j]), Wire(tail[j..]), n - |Encode(frames[0])|, m);
  }

  /** A split of some bytes, seen with more bytes in front of them. */
  lemma SplitMoves<T>(front: seq<T>, w: seq<T>, a: seq<T>, b: seq<T>, n: nat, m: nat)
    requires n <= |w| && m <= |b| && w[..n] == a + b[..m] && w[n..] == b[m..]
    ensures (front + w)[..|front| + n] == front + a + b[..m] && (front + w)[|front| + n..] == b[m..]
  {
    CutBehind(front, w, |front| + n);
  }

  lemma {:induction false} WireSplits(frames: seq<Sent>, k: nat)
    requires k <= |frames|
    ensures Wire(frames) == Wire(frames[..k]) + Wire(frames[k..])
    decreases k
  {
    if k == 0 {
      assert frames[0..] == frames;
    } else {
      WireSplits(frames[1..], k - 1);
      PartsOfRest(frames, k);
      JoinThree(Encode(frames[0]), Wire(frames[1..][..k - 1]), Wire(frames[k..]));
    }
  }

  lemma ParseAt(frames: seq<Sent>, k: nat, m: nat, unit: nat)
    requires unit > 0 && AllOk(frames, unit)
    requires k <= |frames| && if k == |frames| then m == 0 else m < |Encode(frames[k])|
    ensures m <= |Wire(frames[k..])|
    ensures Parse(Wire(frames[..k]) + Wire(frames[k..])[..m], unit) == Parsed(frames[..k], Wire(frames[k..])[..m], false)
  {
    var tail := Wire(frames[k..])[..m];
    if k < |frames| {
      assert frames[k] in frames;
      assert tail == Encode(frames[k])[..m];
      PartOfFrame(frames[k], m, unit);
    }
    assert frames[..k] + [] == frames[..k];
    ParseBehindFrames(frames[..k], tail, unit);
  }

  /** What a parse finds in any part of a stream: the complete frames, and a proper part of the next one kept. */
  lemma ParsePart(frames: seq<Sent>, n: nat, unit: nat) returns (k: nat, m: nat)
    requires unit > 0 && AllOk(frames, unit) && n <= |Wire(frames)|
    ensures k <= |frames| && if k == |frames| then m == 0 else m < |Encode(frames[k])|
    ensures Splits(frames, n, k, m)
    ensures Parse(Wire(frames)[..n], unit) == Parsed(frames[..k], Wire(frames[k..])[..m], false)
  {
    k, m := Locate(frames, n);
    ParseAt(frames, k, m, unit);
  }

  // ---------------------------------------------------------------- round trip

  /** A reader that is given the bytes in pieces: it parses what it kept together with the next piece. */
  function Receive(kept: seq<Byte>, chunks: seq<seq<Byte>>, unit: nat): Parsed
    requires unit > 0
    decreases |chunks|
  {
    if chunks == [] then Parsed([], kept, false)
    else
      var p := Parse(kept + chunks[0], unit);
      if p.bad then p
      else
        var q := Receive(p.rest, chunks[1..], unit);
        q.(frames := p.frames + q.frames)
  }

  function Joined(chunks: seq<seq<Byte>>): seq<Byte> {
    if chunks == [] then [] else chunks[0] + Joined(chunks[1..])
  }

  /** How the bytes were cut into reads makes no difference. */
  lemma {:induction false} CuttingIrrelevant(kept: seq<Byte>, chunks: seq<seq<Byte>>, unit: nat)
    requires unit > 0 && Parse(kept, unit) == Parsed([], kept, false)
    requires !Parse(kept + Joined(chunks), unit).bad
    ensures Receive(kept, chunks, unit) == Parse(kept + Joined(chunks), unit)
    decreases |chunks|
  {
    if chunks == [] {
      assert kept + Joined(chunks) == kept;
    } else {
      var a, b := kept + chunks[0], Joined(chunks[1..]);
      assert kept + Joined(chunks) == a + b;
      BadStaysBad(a, b, unit);
      ParseInParts(a, b, unit);
      RestIsIncomplete(a, unit);
      CuttingIrrelevant(Parse(a, unit).rest, chunks[1..], unit);
    }
  }

  lemma {:induction false} BadStaysBad(a: seq<Byte>, b: seq<Byte>, unit: nat)
    requires unit > 0
    ensures Parse(a, unit).bad ==> Parse(a + b, unit).bad
    decreases |a|
  {
    if |a| >= HEADER {
      FrontStays(a, b, unit);
      if FrontReady(a, unit) {
        BadStaysBad(a[HEADER + LengthOf(a)..], b, unit);
      }
    }
  }

  lemma {:induction false} RestIsIncomplete(a: seq<Byte>, unit: nat)
    requires unit > 0
    ensures var p := Parse(a, unit); Parse(p.rest, unit) == Parsed([], p.rest, p.bad)
    decreases |a|
  {
    if FrontReady(a, unit) {
      RestIsIncomplete(a[HEADER + LengthOf(a)..], unit);
    }
  }

  lemma ReceiveWhole(b: seq<Byte>, chunks: seq<seq<Byte>>, unit: nat)
    requires unit > 0 && Joined(chunks) == b && !Parse(b, unit).bad
    ensures Receive([], chunks, unit) == Parse(b, unit)
  {
    assert [] + Joined(chunks) == b;
    CuttingIrrelevant([], chunks, unit);
  }

  /** The whole stream, however cut, comes out as exactly the frames that went in, with nothing left over. */
  lemma RoundTrip(frames: seq<Sent>, chunks: seq<seq<Byte>>, unit: nat)
    requires unit > 0 && AllOk(frames, unit) && Joined(chunks) == Wire(frames)
    ensures Receive([], chunks, unit) == Parsed(frames, [], false)
  {
    assert Wire(frames) + [] == Wire(frames) && frames + [] == frames;
    ParseBehindFrames(frames, [], unit);
    ReceiveWhole(Wire(frames), chunks, unit);
  }

  /** At any moment a reader has delivered the complete frames, and keeps a proper part of the next one. */
  lemma MidStream(frames: seq<Sent>, chunks: seq<seq<Byte>>, unit: nat) returns (k: nat, m: nat)
    requires unit > 0 && AllOk(frames, unit) && Joined(chunks) <= Wire(frames)
    ensures k <= |frames| && if k == |frames| then m == 0 else m < |Encode(frames[k])|
    ensures Splits(frames, |Joined(chunks)|, k, m)
    ensures Receive([], chunks, unit) == Parsed(frames[..k], Wire(frames[k..])[..m], false)
  {
    var n := |Joined(chunks)|;
    k, m := ParsePart(frames, n, unit);
    ReceiveWhole(Wire(frames)[..n], chunks, unit);
  }
}
