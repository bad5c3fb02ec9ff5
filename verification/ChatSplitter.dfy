/** Splitting chat text into IRC lines: no byte is lost, no UTF-8 character is
    cut, and words stay whole where they fit. */
module ChatSplitter {

  type Byte = x: int | 0 <= x < 256

  const SPACE: Byte := 0x20
  const CR: Byte := 13
  const LF: Byte := 10
  const CTCP: Byte := 1
  const MESSAGE_MAX: nat := 1024
  const DEFAULT_LIMIT: nat := 512

  // ---------------------------------------------------------------- UTF-8, as RFC 3629 section 4 defines it

  predicate Continuation(b: Byte) {
    0x80 <= b <= 0xbf
  }

  /** The source looks at the two topmost bits. */
  lemma ContinuationBits(b: Byte)
    ensures Continuation(b) <==> b / 0x40 == 2
  {
  }

  /** The length of the well-formed character at the front of a text, or 0 if there is none. */
  function CharLength(t: seq<Byte>): (n: nat)
    ensures n <= |t| && n <= 4
    ensures n > 0 ==> !Continuation(t[0]) && forall i :: 1 <= i < n ==> Continuation(t[i])
  {
    if t == [] || t[0] == 0 then 0
    else if t[0] < 0x80 then 1
    else if 0xc2 <= t[0] <= 0xdf && |t| >= 2 && Continuation(t[1]) then 2
    else if 0xe0 <= t[0] <= 0xef && |t| >= 3 && Continuation(t[1]) && Continuation(t[2])
         && (t[0] == 0xe0 ==> t[1] >= 0xa0) && (t[0] == 0xed ==> t[1] <= 0x9f) then 3
    else if 0xf0 <= t[0] <= 0xf4 && |t| >= 4 && Continuation(t[1]) && Continuation(t[2]) && Continuation(t[3])
         && (t[0] == 0xf0 ==> t[1] >= 0x90) && (t[0] == 0xf4 ==> t[1] <= 0x8f) then 4
    else 0
  }

  /** The bytes of a character number, as section 3 of RFC 3629 writes them. */
  function CharBytes(v: nat): seq<Byte>
    requires v <= 0x10_ffff
  {
    if v < 0x80 then [v]
    else if v < 0x800 then [0xc0 + v / 0x40, 0x80 + v % 0x40]
    else if v < 0x1_0000 then [0xe0 + v / 0x40 / 0x40, 0x80 + v / 0x40 % 0x40, 0x80 + v % 0x40]
    else [0xf0 + v / 0x40 / 0x40 / 0x40, 0x80 + v / 0x40 / 0x40 % 0x40, 0x80 + v / 0x40 % 0x40, 0x80 + v % 0x40]
  }

  predicate IsScalar(v: nat) {
    0 < v <= 0x10_ffff && !(0xd800 <= v <= 0xdfff)
  }

  /** The well-formed characters are exactly the bytes of the character numbers, without zero and surrogates. */
  lemma CharIsRead(v: nat, rest: seq<Byte>)
    requires IsScalar(v)
    ensures CharLength(CharBytes(v) + rest) == |CharBytes(v)|
  {
  }

  lemma Sextets(a: nat, b: nat)
    requires b < 0x40
    ensures (a * 0x40 + b) / 0x40 == a && (a * 0x40 + b) % 0x40 == b
  {
  }

  lemma ThreeBytes(a: nat, b: nat, c: nat) returns (v: nat)
    requires a < 0x10 && b < 0x40 && c < 0x40 && (a == 0 ==> b >= 0x20) && (a == 0xd ==> b < 0x20)
    ensures IsScalar(v) && CharBytes(v) == [0xe0 + a, 0x80 + b, 0x80 + c]
  {
    v := (a * 0x40 + b) * 0x40 + c;
    Sextets(a, b);
    Sextets(a * 0x40 + b, c);
  }

  lemma FourBytes(a: nat, b: nat, c: nat, d: nat) returns (v: nat)
    requires a < 5 && b < 0x40 && c < 0x40 && d < 0x40 && (a == 0 ==> b >= 0x10) && (a == 4 ==> b < 0x10)
    ensures IsScalar(v) && CharBytes(v) == [0xf0 + a, 0x80 + b, 0x80 + c, 0x80 + d]
  {
    v := ((a * 0x40 + b) * 0x40 + c) * 0x40 + d;
    Sextets(a, b);
    Sextets(a * 0x40 + b, c);
    Sextets((a * 0x40 + b) * 0x40 + c, d);
  }

  lemma CharIsScalar(t: seq<Byte>) returns (v: nat)
    requires CharLength(t) > 0
    ensures IsScalar(v) && t[..CharLength(t)] == CharBytes(v)
  {
    match CharLength(t)
    case 1 => v := t[0] as int;
    case 2 =>
      v := (t[0] as int - 0xc0) * 0x40 + (t[1] as int - 0x80);
      Sextets(t[0] as int - 0xc0, t[1] as int - 0x80);
    case 3 => v := ThreeBytes(t[0] as int - 0xe0, t[1] as int - 0x80, t[2] as int - 0x80);
    case _ => v := FourBytes(t[0] as int - 0xf0, t[1] as int - 0x80, t[2] as int - 0x80, t[3] as int - 0x80);
  }

  predicate Utf8(t: seq<Byte>)
    decreases |t|
  {
    t == [] || (CharLength(t) > 0 && Utf8(t[CharLength(t)..]))
  }

  predicate Boundary(t: seq<Byte>, i: nat)
    requires i <= |t|
  {
    i == |t| || !Continuation(t[i])
  }

  lemma CharLengthOfPrefix(t: seq<Byte>, i: nat)
    requires CharLength(t) <= i <= |t|
    ensures CharLength(t) > 0 ==> CharLength(t[..i]) == CharLength(t)
  {
  }

  /** Cutting between characters leaves two valid texts. */
  lemma {:induction false} CutAtBoundary(t: seq<Byte>, i: nat)
    requires Utf8(t) && i <= |t| && Boundary(t, i)
    ensures Utf8(t[..i]) && Utf8(t[i..])
    decreases |t|
  {
    if i == 0 {
      assert t[0..] == t;
    } else {
      var n := CharLength(t);
      CharLengthOfPrefix(t, i);
      CutAtBoundary(t[n..], i - n);
      assert t[..i][n..] == t[n..][..i - n] && t[n..][i - n..] == t[i..];
    }
  }

  /** Among any four neighbouring positions of a valid text one is between characters. */
  lemma {:induction false} BoundaryNear(t: seq<Byte>, i: nat)
    requires Utf8(t) && 3 < i < |t|
    ensures exists k :: i - 3 <= k <= i && Boundary(t, k)
    decreases |t|
  {
    var n := CharLength(t);
    if i - n <= 3 {
      NextIsBoundary(t);
      assert Boundary(t, n);
    } else {
      BoundaryNear(t[n..], i - n);
      var k :| i - n - 3 <= k <= i - n && Boundary(t[n..], k);
      assert Boundary(t, k + n);
    }
  }

  lemma NextIsBoundary(t: seq<Byte>)
    requires Utf8(t) && t != []
    ensures Boundary(t, CharLength(t))
  {
    var rest := t[CharLength(t)..];
    assert rest != [] ==> CharLength(rest) > 0;
  }

  // ---------------------------------------------------------------- where a chunk ends

  /** Steps back from n to the start of the character that n lies in. */
  function BackOff(t: seq<Byte>, n: nat): (k: nat)
    requires n < |t|
    ensures k <= n && (k > 0 ==> Boundary(t, k))
    ensures forall j :: k < j <= n ==> Continuation(t[j])
  {
    if n > 0 && Continuation(t[n]) then BackOff(t, n - 1) else n
  }

  /** The end of the last space within the first n bytes, or 0. */
  function LastSpace(t: seq<Byte>, n: nat): (k: nat)
    requires n <= |t|
    ensures k <= n && (k > 0 ==> t[k - 1] == SPACE)
    ensures forall j :: k <= j < n ==> t[j] != SPACE
  {
    if n == 0 then 0 else if t[n - 1] == SPACE then n else LastSpace(t, n - 1)
  }

  /** The length of the next chunk of a text that does not fit whole; 0 if not even a character fits. */
  function ChunkLength(t: seq<Byte>, budget: nat): (n: nat)
    requires budget < |t|
    ensures n <= budget
  {
    var k := BackOff(t, budget);
    if LastSpace(t, k) > 0 then LastSpace(t, k) else k
  }

  datatype Split = Split(chunks: seq<seq<Byte>>, complete: bool)

  function SplitText(t: seq<Byte>, budget: nat): Split
    decreases |t|
  {
    if |t| <= budget then Split([t], true)
    else
      var n := ChunkLength(t, budget);
      if n == 0 then Split([], false)
      else
        var rest := SplitText(t[n..], budget);
        Split([t[..n]] + rest.chunks, rest.complete)
  }

  function Joined(chunks: seq<seq<Byte>>): seq<Byte> {
    if chunks == [] then [] else chunks[0] + Joined(chunks[1..])
  }

  // ---------------------------------------------------------------- what the splitter promises

  /** A chunk with more text behind it ends in the last space within the budget, or where there is none it is the
      longest run of whole characters that fits. */
  ghost predicate EndsWell(chunk: seq<Byte>, behind: seq<Byte>, budget: nat) {
    GoodCut(chunk + behind, |chunk|, budget)
  }

  ghost predicate GoodCut(t: seq<Byte>, n: nat, budget: nat)
    requires n <= |t|
  {
    && 0 < n <= budget < |t|
    && (forall j :: n <= j < budget ==> t[j] != SPACE)
    && (t[n - 1] == SPACE || (SPACE !in t[..n] && forall j :: n < j <= budget ==> Continuation(t[j])))
  }

  ghost predicate AllEndWell(chunks: seq<seq<Byte>>, budget: nat)
    decreases |chunks|
  {
    |chunks| <= 1 || (EndsWell(chunks[0], Joined(chunks[1..]), budget) && AllEndWell(chunks[1..], budget))
  }

  lemma NoSpaceInTail(t: seq<Byte>, budget: nat)
    requires Utf8(t) && budget < |t|
    ensures forall j :: BackOff(t, budget) <= j < budget ==> t[j] != SPACE
  {
    var k := BackOff(t, budget);
    if k < budget && t[k] == SPACE {
      AfterSpace(t, k + 1);
    }
  }

  lemma SpaceCut(t: seq<Byte>, budget: nat, k: nat, n: nat)
    requires k <= budget < |t| && n == LastSpace(t, k) && forall j :: k <= j < budget ==> t[j] != SPACE
    requires forall j :: k < j <= budget ==> Continuation(t[j])
    ensures n > 0 ==> GoodCut(t, n, budget)
    ensures n == 0 && k > 0 ==> GoodCut(t, k, budget)
  {
  }

  lemma RoomForOne(t: seq<Byte>, budget: nat)
    requires Utf8(t) && 4 <= budget < |t|
    ensures BackOff(t, budget) > 0
  {
    BoundaryNear(t, budget);
  }

  lemma ChunkIsWhole(t: seq<Byte>, budget: nat)
    requires Utf8(t) && 4 <= budget < |t|
    ensures var n := ChunkLength(t, budget);
            0 < n && Boundary(t, n) && GoodCut(t, n, budget)
  {
    ChunkIsGood(t, budget);
    ChunkIsBetween(t, budget);
  }

  lemma ChunkIsGood(t: seq<Byte>, budget: nat)
    requires Utf8(t) && 4 <= budget < |t|
    ensures var n := ChunkLength(t, budget); 0 < n && GoodCut(t, n, budget)
  {
    var k := BackOff(t, budget);
    RoomForOne(t, budget);
    NoSpaceInTail(t, budget);
    SpaceCut(t, budget, k, LastSpace(t, k));
  }

  lemma ChunkIsBetween(t: seq<Byte>, budget: nat)
    requires Utf8(t) && budget < |t|
    ensures Boundary(t, ChunkLength(t, budget))
  {
    var n := LastSpace(t, BackOff(t, budget));
    if n > 0 {
      AfterSpace(t, n);
    }
  }

  /** A space is a whole character, so the position behind it is between characters. */
  lemma {:induction false} AfterSpace(t: seq<Byte>, n: nat)
    requires Utf8(t) && 0 < n <= |t| && t[n - 1] == SPACE
    ensures Boundary(t, n)
    decreases |t|
  {
    var m := CharLength(t);
    if n <= m {
      NextIsBoundary(t);
    } else {
      AfterSpace(t[m..], n - m);
    }
  }

  predicate WholeChunks(chunks: seq<seq<Byte>>, budget: nat) {
    forall i :: 0 <= i < |chunks| ==> Utf8(chunks[i]) && |chunks[i]| <= budget
  }

  /** The chunks join to the text, each is valid text within the budget, and all but the last end in a space or
      are as long as possible. */
  ghost predicate Faithful(chunks: seq<seq<Byte>>, t: seq<Byte>, budget: nat) {
    chunks != [] && Joined(chunks) == t && WholeChunks(chunks, budget) && AllEndWell(chunks, budget)
  }

  lemma AddChunk(t: seq<Byte>, n: nat, chunks: seq<seq<Byte>>, budget: nat)
    requires n <= |t| && n <= budget && Utf8(t[..n]) && GoodCut(t, n, budget)
    requires Faithful(chunks, t[n..], budget)
    ensures Faithful([t[..n]] + chunks, t, budget)
  {
    assert ([t[..n]] + chunks)[1..] == chunks;
    assert t[..n] + t[n..] == t;
  }

  lemma OneChunk(t: seq<Byte>, budget: nat)
    requires Utf8(t) && |t| <= budget
    ensures Faithful([t], t, budget)
  {
    assert [t][1..] == [];
    assert t + [] == t;
  }

  /** With room for any character, every valid text is sent completely and faithfully. */
  lemma {:induction false} SplitIsLossless(t: seq<Byte>, budget: nat)
    requires Utf8(t) && 4 <= budget
    ensures SplitText(t, budget).complete && Faithful(SplitText(t, budget).chunks, t, budget)
    decreases |t|
  {
    if |t| <= budget {
      OneChunk(t, budget);
    } else {
      var n := ChunkLength(t, budget);
      ChunkIsWhole(t, budget);
      CutAtBoundary(t, n);
      SplitIsLossless(t[n..], budget);
      AddChunk(t, n, SplitText(t[n..], budget).chunks, budget);
    }
  }

  ghost predicate SplitsEverything(budget: nat) {
    forall t :: Utf8(t) ==> SplitText(t, budget).complete
  }

  /** A smaller budget fails on some valid text: four bytes are needed. */
  lemma FourBytesNeeded(budget: nat)
    ensures SplitsEverything(budget) <==> budget >= 4
  {
    if budget >= 4 {
      forall t | Utf8(t) ensures SplitText(t, budget).complete {
        SplitIsLossless(t, budget);
      }
    } else {
      var c: seq<Byte> := [0xf0, 0x90, 0x80, 0x80];
      assert CharLength(c) == 4 && c[4..] == [];
      assert Utf8(c);
      assert BackOff(c, budget) == 0;
    }
  }

  // ---------------------------------------------------------------- the line limit

  predicate IsDigit(b: Byte) {
    0x30 <= b <= 0x39
  }

  function LimitFrom(value: seq<Byte>, limit: nat): (r: nat)
    requires limit <= MESSAGE_MAX && forall i :: 0 <= i < |value| ==> IsDigit(value[i])
    ensures r <= MESSAGE_MAX
    decreases |value|
  {
    if value == [] then limit
    else
      assert IsDigit(value[0]);
      var next := if limit < MESSAGE_MAX then limit * 10 + (value[0] as int - 0x30) else limit;
      LimitFrom(value[1..], if next > MESSAGE_MAX then MESSAGE_MAX else next)
  }

  /** The advertised line length, no more than the transport's buffer; the default where nothing usable is advertised. */
  function LineLimit(value: seq<Byte>): (r: nat)
    ensures 2 <= r <= MESSAGE_MAX
  {
    if value == [] || exists i :: 0 <= i < |value| && !IsDigit(value[i]) then DEFAULT_LIMIT
    else if LimitFrom(value, 0) >= 2 then LimitFrom(value, 0) else DEFAULT_LIMIT
  }

  function Number(value: seq<Byte>): int
    requires forall i :: 0 <= i < |value| ==> IsDigit(value[i])
  {
    if value == [] then 0 else Number(value[..|value| - 1]) * 10 + (value[|value| - 1] as int - 0x30)
  }

  lemma {:induction false} LimitSaturates(done: seq<Byte>, value: seq<Byte>, limit: nat)
    requires forall i :: 0 <= i < |done + value| ==> IsDigit((done + value)[i])
    requires forall i :: 0 <= i < |done| ==> IsDigit(done[i])
    requires forall i :: 0 <= i < |value| ==> IsDigit(value[i])
    requires limit == if Number(done) > MESSAGE_MAX then MESSAGE_MAX else Number(done)
    ensures LimitFrom(value, limit) == if Number(done + value) > MESSAGE_MAX then MESSAGE_MAX else Number(done + value)
    decreases |value|
  {
    if value == [] {
      assert done + value == done;
    } else {
      var more := done + [value[0]];
      assert more[..|more| - 1] == done;
      assert done + value == more + value[1..];
      LimitSaturates(more, value[1..], if limit < MESSAGE_MAX && limit * 10 + (value[0] as int - 0x30) <= MESSAGE_MAX
                                       then limit * 10 + (value[0] as int - 0x30) else MESSAGE_MAX);
    }
  }

  /** Without numeric overflow the limit is the advertised number, capped, if that leaves room for the line ending. */
  lemma LimitIsCappedNumber(value: seq<Byte>)
    requires value != [] && forall i :: 0 <= i < |value| ==> '0' as int <= value[i] <= '9' as int
    ensures var capped := if Number(value) > 1024 then 1024 else Number(value);
            LineLimit(value) == if capped >= 2 then capped else 512
  {
    assert [] + value == value;
    LimitSaturates([], value, 0);
  }

  /** Nothing advertised, or no number, or one too small for a line ending, means 512. */
  lemma LimitOtherwise(value: seq<Byte>)
    requires value == [] || (exists i :: 0 <= i < |value| && (value[i] < '0' as int || value[i] > '9' as int))
             || value == ['0' as int] || value == ['1' as int]
    ensures LineLimit(value) == 512
  {
    if value != [] && forall i :: 0 <= i < |value| ==> IsDigit(value[i]) {
      assert value[1..] == [] && LimitFrom([], value[0] as int - 0x30) == value[0] as int - 0x30;
      assert LimitFrom(value, 0) < 2;
    }
  }

  // ---------------------------------------------------------------- the sender

  datatype Kind = Public | Action | Notice

  const PRIVMSG: seq<Byte> := [0x50, 0x52, 0x49, 0x56, 0x4d, 0x53, 0x47]
  const NOTICE: seq<Byte> := [0x4e, 0x4f, 0x54, 0x49, 0x43, 0x45]
  const ACTION: seq<Byte> := [CTCP, 0x41, 0x43, 0x54, 0x49, 0x4f, 0x4e, SPACE]
  const COLON: Byte := 0x3a

  function Command(kind: Kind): seq<Byte> {
    if kind == Notice then NOTICE else PRIVMSG
  }

  /** The line for one chunk, without its CR and LF. */
  function Line(kind: Kind, target: seq<Byte>, chunk: seq<Byte>): seq<Byte> {
    Command(kind) + [SPACE] + target + [SPACE, COLON]
    + if kind == Action then ACTION + chunk + [CTCP] else chunk
  }

  function Overhead(kind: Kind, target: seq<Byte>): nat {
    |Command(kind)| + |target| + 5 + if kind == Action then 9 else 0
  }

  /** Every line with its CR and LF fits the limit exactly as far as its chunk fits the budget. */
  lemma LineFits(kind: Kind, target: seq<Byte>, chunk: seq<Byte>, limit: nat)
    requires Overhead(kind, target) < limit
    ensures |Line(kind, target, chunk)| + 2 <= limit <==> |chunk| <= limit - Overhead(kind, target)
  {
  }

  function Lines(kind: Kind, target: seq<Byte>, chunks: seq<seq<Byte>>): (r: seq<seq<Byte>>)
    ensures |r| == |chunks| && forall i :: 0 <= i < |r| ==> r[i] == Line(kind, target, chunks[i])
  {
    seq(|chunks|, i requires 0 <= i < |chunks| => Line(kind, target, chunks[i]))
  }

  predicate Sendable(kind: Kind, target: seq<Byte>, text: seq<Byte>, limit: nat) {
    && Overhead(kind, target) < limit && CR !in text && LF !in text && (kind != Action ==> CTCP !in text)
  }

  predicate AllFit(lines: seq<seq<Byte>>, limit: nat) {
    forall i :: 0 <= i < |lines| ==> |lines[i]| + 2 <= limit
  }

  lemma AllLinesFit(kind: Kind, target: seq<Byte>, chunks: seq<seq<Byte>>, limit: nat)
    requires Overhead(kind, target) < limit && WholeChunks(chunks, limit - Overhead(kind, target))
    ensures AllFit(Lines(kind, target, chunks), limit)
  {
    forall i | 0 <= i < |chunks| ensures |Lines(kind, target, chunks)[i]| + 2 <= limit {
      LineFits(kind, target, chunks[i], limit);
    }
  }

  /** The bytes of a protocol word. */
  function Ascii(s: string): (b: seq<Byte>)
    requires forall i :: 0 <= i < |s| ==> s[i] as int < 128
    ensures |b| == |s| && forall i :: 0 <= i < |s| ==> b[i] == s[i] as int
  {
    seq(|s|, i requires 0 <= i < |s| => var b: Byte := s[i] as int; b)
  }

  /** Where a byte first stands, or the length. */
  function Find(t: seq<Byte>, b: Byte): (i: nat)
    ensures i <= |t| && (i < |t| ==> t[i] == b) && b !in t[..i]
  {
    if t == [] || t[0] == b then 0 else 1 + Find(t[1..], b)
  }

  /** What a receiver makes of a line: a message or a notice, for whom, an action or plain text, and the text. */
  datatype Received = Received(notice: bool, target: seq<Byte>, action: bool, text: seq<Byte>) | Unknown

  /** A text between \001ACTION and \001. */
  predicate Wrapped(text: seq<Byte>) {
    |text| >= 9 && text[..8] == [1] + Ascii("ACTION ") && text[|text| - 1] == 1
  }

  function Understood(notice: bool, target: seq<Byte>, text: seq<Byte>): Received {
    if Wrapped(text) then Received(notice, target, true, text[8..|text| - 1]) else Received(notice, target, false, text)
  }

  /** A receiver takes the command up to the first space, the target up to the next, and the text behind a colon. */
  function Read(line: seq<Byte>): Received {
    var i := Find(line, ' ' as int);
    if i == |line| || line[..i] !in {Ascii("PRIVMSG"), Ascii("NOTICE")} then Unknown
    else
      var rest := line[i + 1..];
      var j := Find(rest, ' ' as int);
      if |rest| < j + 2 || rest[j + 1] != ':' as int then Unknown
      else Understood(line[..i] == Ascii("NOTICE"), rest[..j], rest[j + 2..])
  }

  lemma {:induction false} FindAt(a: seq<Byte>, b: seq<Byte>, x: Byte)
    requires x !in a
    ensures Find(a + [x] + b, x) == |a|
    ensures (a + [x] + b)[..|a|] == a && (a + [x] + b)[|a| + 1..] == b
    decreases |a|
  {
    if a != [] {
      assert (a + [x] + b)[1..] == a[1..] + [x] + b;
      FindAt(a[1..], b, x);
    }
  }

  lemma ProtocolWords()
    ensures PRIVMSG == Ascii("PRIVMSG") && NOTICE == Ascii("NOTICE") && ACTION == [1] + Ascii("ACTION ")
    ensures SPACE !in PRIVMSG && SPACE !in NOTICE && PRIVMSG != NOTICE
  {
    assert |PRIVMSG| == 7 && |NOTICE| == 6;
  }

  /** The text of a line as it is sent, an action wrapped. */
  function Body(kind: Kind, chunk: seq<Byte>): seq<Byte> {
    if kind == Action then ACTION + chunk + [CTCP] else chunk
  }

  lemma ReadParts(notice: bool, target: seq<Byte>, text: seq<Byte>)
    requires SPACE !in target
    ensures Read((if notice then NOTICE else PRIVMSG) + [SPACE] + target + [SPACE, COLON] + text)
         == Understood(notice, target, text)
  {
    ProtocolWords();
    var command, rest := if notice then NOTICE else PRIVMSG, target + [SPACE] + ([COLON] + text);
    assert command + [SPACE] + target + [SPACE, COLON] + text == command + [SPACE] + rest;
    FindAt(command, rest, SPACE);
    FindAt(target, [COLON] + text, SPACE);
    assert rest[|target| + 1..] == [COLON] + text;
    assert rest[|target| + 2..] == text;
  }

  lemma BodyUnderstood(notice: bool, target: seq<Byte>, kind: Kind, chunk: seq<Byte>)
    requires kind != Action ==> !Wrapped(chunk)
    ensures Understood(notice, target, Body(kind, chunk)) == Received(notice, target, kind == Action, chunk)
  {
    ProtocolWords();
    if kind == Action {
      var body := ACTION + chunk + [CTCP];
      assert body[..8] == ACTION && body[8..|body| - 1] == chunk;
    }
  }

  /** Every line is read as what was sent: a notice exactly for a notice, under its target, an action exactly for an
      action, and with the very bytes of its chunk; only a plain text that is itself wrapped is taken for an action. */
  lemma LineIsRead(kind: Kind, target: seq<Byte>, chunk: seq<Byte>)
    requires SPACE !in target
    ensures Read(Line(kind, target, chunk)) == Received(kind == Notice, target, kind == Action, chunk)
       <==> kind == Action || !Wrapped(chunk)
  {
    ReadParts(kind == Notice, target, Body(kind, chunk));
    assert Line(kind, target, chunk)
        == (if kind == Notice then NOTICE else PRIVMSG) + [SPACE] + target + [SPACE, COLON] + Body(kind, chunk);
    if kind == Action || !Wrapped(chunk) {
      BodyUnderstood(kind == Notice, target, kind, chunk);
    }
  }

  lemma {:induction false} InNoChunk(chunks: seq<seq<Byte>>, b: Byte)
    requires b !in Joined(chunks)
    ensures forall i :: 0 <= i < |chunks| ==> b !in chunks[i]
    decreases |chunks|
  {
    if chunks != [] {
      assert forall x :: x in chunks[0] || x in Joined(chunks[1..]) ==> x in Joined(chunks);
      InNoChunk(chunks[1..], b);
    }
  }

  /** All lines are read as this kind of message for this target, and their texts are the given ones. */
  ghost predicate ReadAs(lines: seq<seq<Byte>>, kind: Kind, target: seq<Byte>, texts: seq<seq<Byte>>) {
    |lines| == |texts| &&
    forall i :: 0 <= i < |lines| ==> Read(lines[i]) == Received(kind == Notice, target, kind == Action, texts[i])
  }

  lemma LinesAreRead(kind: Kind, target: seq<Byte>, chunks: seq<seq<Byte>>)
    requires SPACE !in target && (kind != Action ==> CTCP !in Joined(chunks))
    ensures ReadAs(Lines(kind, target, chunks), kind, target, chunks)
  {
    if kind != Action {
      InNoChunk(chunks, CTCP);
    }
    forall i | 0 <= i < |chunks|
      ensures Read(Lines(kind, target, chunks)[i]) == Received(kind == Notice, target, kind == Action, chunks[i])
    {
      assert Wrapped(chunks[i]) ==> CTCP in chunks[i];
      LineIsRead(kind, target, chunks[i]);
    }
  }

  /** The whole promise to a user: a valid text goes out completely, on lines that all fit, and what a receiver reads
      from them is texts of that kind for that target which join to the text; each is valid, and they are cut well. */
  lemma ChatArrivesWhole(kind: Kind, target: seq<Byte>, text: seq<Byte>, limit: nat) returns (texts: seq<seq<Byte>>)
    requires Overhead(kind, target) + 4 <= limit && Utf8(text) && SPACE !in target && (kind != Action ==> CTCP !in text)
    ensures var s := SplitText(text, limit - Overhead(kind, target));
            && s.complete && ReadAs(Lines(kind, target, s.chunks), kind, target, texts)
            && AllFit(Lines(kind, target, s.chunks), limit)
    ensures Joined(texts) == text && Faithful(texts, text, limit - Overhead(kind, target))
  {
    var budget := limit - Overhead(kind, target);
    SplitIsLossless(text, budget);
    texts := SplitText(text, budget).chunks;
    AllLinesFit(kind, target, texts, limit);
    LinesAreRead(kind, target, texts);
  }

  /** A connection that takes a number of lines and then fails. */
  class Connection {
    var sent: seq<seq<Byte>>
    var room: nat

    constructor (lines: nat)
      ensures sent == [] && room == lines
    {
      sent, room := [], lines;
    }

    method Send(line: seq<Byte>) returns (ok: bool)
      modifies this
      ensures ok == (old(room) > 0)
      ensures sent == old(sent) + (if ok then [line] else []) && room == if ok then old(room) - 1 else old(room)
    {
      ok := room > 0;
      if ok {
        sent, room := sent + [line], room - 1;
      }
    }
  }

  function Taken(lines: seq<seq<Byte>>, room: nat): seq<seq<Byte>> {
    if |lines| <= room then lines else lines[..room]
  }

  /** Sends a text in chunks; an ordinary CTCP request keeps its single line. */
  method SendChat(c: Connection, kind: Kind, target: seq<Byte>, text: seq<Byte>, limit: nat) returns (ok: bool)
    modifies c
    ensures Sendable(kind, target, text, limit) ==>
              var s := SplitText(text, limit - Overhead(kind, target));
              && ok == (s.complete && |s.chunks| <= old(c.room))
              && c.sent == old(c.sent) + Taken(Lines(kind, target, s.chunks), old(c.room))
    ensures !Sendable(kind, target, text, limit) ==>
              if kind != Action && CTCP in text && CR !in text && LF !in text
              then c.sent == old(c.sent) + Taken([Line(kind, target, text)], old(c.room)) && ok == (old(c.room) > 0)
              else !ok && c.sent == old(c.sent)
  {
    if Overhead(kind, target) >= limit || CR in text || LF in text || (kind != Action && CTCP in text) {
      if kind != Action && CTCP in text && CR !in text && LF !in text {
        ok := c.Send(Line(kind, target, text));
      } else {
        ok := false;
      }
      return;
    }
    ok := SendChunks(c, kind, target, text, limit - Overhead(kind, target));
  }

  /** Where the sending loop stands: which chunks are out, and what the rest still gives. */
  ghost predicate Progress(whole: Split, chunks: seq<seq<Byte>>, rest: seq<Byte>, budget: nat, more: bool) {
    if more then
      whole.chunks == chunks + SplitText(rest, budget).chunks && whole.complete == SplitText(rest, budget).complete
    else
      whole.chunks == chunks && whole.complete
  }

  lemma NextChunk(whole: Split, chunks: seq<seq<Byte>>, rest: seq<Byte>, budget: nat, length: nat)
    requires Progress(whole, chunks, rest, budget, true) && length <= |rest|
    requires length == if |rest| <= budget then |rest| else ChunkLength(rest, budget)
    ensures |rest| > budget && length == 0 ==> whole == Split(chunks, false)
    ensures |rest| <= budget || length > 0 ==>
              && |whole.chunks| > |chunks| && whole.chunks[..|chunks| + 1] == chunks + [rest[..length]]
              && Progress(whole, chunks + [rest[..length]], rest[length..], budget, length < |rest|)
  {
    var tail := SplitText(rest, budget).chunks;
    if tail == [] {
      assert chunks + tail == chunks;
    } else {
      Regroup(chunks, tail);
      assert rest[..|rest|] == rest;
    }
  }

  lemma Regroup<T>(done: seq<T>, tail: seq<T>)
    requires tail != []
    ensures done + tail == (done + [tail[0]]) + tail[1..] && (done + tail)[..|done| + 1] == done + [tail[0]]
    ensures |tail| == 1 ==> done + tail == done + [tail[0]]
    ensures (done + tail)[..|done|] == done
  {
  }

  lemma LinesGrow(base: seq<seq<Byte>>, kind: Kind, target: seq<Byte>, chunks: seq<seq<Byte>>, chunk: seq<Byte>)
    ensures base + Lines(kind, target, chunks + [chunk]) == base + Lines(kind, target, chunks) + [Line(kind, target, chunk)]
  {
  }

  lemma LinesTaken(kind: Kind, target: seq<Byte>, chunks: seq<seq<Byte>>, n: nat)
    ensures Taken(Lines(kind, target, chunks), n) == Lines(kind, target, if n < |chunks| then chunks[..n] else chunks)
  {
  }

  method SendChunks(c: Connection, kind: Kind, target: seq<Byte>, text: seq<Byte>, budget: nat) returns (ok: bool)
    modifies c
    ensures var s := SplitText(text, budget);
            && ok == (s.complete && |s.chunks| <= old(c.room))
            && c.sent == old(c.sent) + Taken(Lines(kind, target, s.chunks), old(c.room))
  {
    var rest, more := text, true;
    ghost var base := c.sent;
    ghost var chunks: seq<seq<Byte>> := [];
    ghost var whole := SplitText(text, budget);
    LinesTaken(kind, target, whole.chunks, c.room);
    assert [] + whole.chunks == whole.chunks;
    while more
      invariant |chunks| <= |whole.chunks| && whole.chunks[..|chunks|] == chunks
      invariant c.room == old(c.room) - |chunks| && c.sent == base + Lines(kind, target, chunks)
      invariant Progress(whole, chunks, rest, budget, more)
      decreases |rest|, more
    {
      var length := FindEnd(rest, budget);
      NextChunk(whole, chunks, rest, budget, length);
      if length == 0 && rest != [] {
        return false;
      }
      var sent := c.Send(Line(kind, target, rest[..length]));
      if !sent {
        return false;
      }
      LinesGrow(base, kind, target, chunks, rest[..length]);
      chunks := chunks + [rest[..length]];
      rest := rest[length..];
      more := rest != [];
    }
    ok := true;
  }

  /** Steps back to a character, then to a word if one ends within reach. */
  method FindEnd(t: seq<Byte>, budget: nat) returns (length: nat)
    ensures length == if |t| <= budget then |t| else ChunkLength(t, budget)
  {
    if |t| <= budget {
      return |t|;
    }
    length := budget;
    while length > 0 && Continuation(t[length])
      invariant length <= budget && BackOff(t, length) == BackOff(t, budget)
    {
      length := length - 1;
    }
    var i: nat := length;
    while i > 0
      invariant i <= length && length == BackOff(t, budget) && LastSpace(t, i) == LastSpace(t, length)
    {
      if t[i - 1] == SPACE {
        return i;
      }
      i := i - 1;
    }
  }
}
