/** The media child's input side: a growing buffer that frames are read into and
    drained from, with a ceiling on what it may hold. */
module ChildReader {
  import opened MediaFraming

  const MAX_BUFFER: nat := MAX_FRAME + 4096
  const READ_SIZE: nat := 4096

  /** Whether the buffer takes another read of `n` bytes. */
  predicate Accepts(held: nat, n: nat) {
    n <= MAX_BUFFER && held <= MAX_BUFFER - n
  }

  /** Handing on the front frame leaves the same frames in all. */
  lemma DrainStep(frames: seq<Frame>, held: seq<Byte>, unit: nat)
    requires unit > 0 && FrontReady(held, unit)
    ensures Behind(frames + [FrontFrame(held)], Parse(held[HEADER + LengthOf(held)..], unit))
         == Behind(frames, Parse(held, unit))
  {
    ParseFront(held, unit);
    BehindOne(frames, FrontFrame(held), Parse(held[HEADER + LengthOf(held)..], unit));
  }

  lemma DrainEnds(frames: seq<Frame>, held: seq<Byte>, unit: nat)
    requires unit > 0 && !FrontReady(held, unit)
    ensures Behind(frames, Parse(held, unit)) == Parsed(frames, held, |held| >= HEADER && !LengthOk(LengthOf(held), unit))
  {
    assert frames + [] == frames;
  }

  class FrameReader {
    var buf: array<Byte>
    var len: nat

    ghost predicate Valid()
      reads this, buf
    {
      len <= buf.Length <= MAX_BUFFER
    }

    ghost function Held(): seq<Byte>
      requires Valid()
      reads this, buf
    {
      buf[..len]
    }

    constructor ()
      ensures Valid() && Held() == [] && fresh(buf)
    {
      buf := new Byte[0];
      len := 0;
    }

    method Append(data: seq<Byte>) returns (ok: bool)
      requires Valid()
      modifies this, buf
      ensures Valid() && (buf == old(buf) || fresh(buf))
      ensures ok <==> data != [] && Accepts(|old(Held())|, |data|)
      ensures Held() == if ok then old(Held()) + data else old(Held())
    {
      if data == [] || |data| > MAX_BUFFER || len > MAX_BUFFER - |data| {
        return false;
      }
      Reserve(len + |data|);
      forall i | 0 <= i < |data| {
        buf[len + i] := data[i];
      }
      assert buf[..len] == old(Held());
      len := len + |data|;
      return true;
    }

    /** Doubles the capacity until it suffices, but never past the ceiling. */
    method Reserve(needed: nat)
      requires Valid() && needed <= MAX_BUFFER
      modifies this`buf
      ensures Valid() && (buf == old(buf) || fresh(buf))
      ensures buf.Length >= needed && Held() == old(Held())
    {
      if needed > buf.Length {
        var capacity := if buf.Length > 0 then buf.Length else 4096;
        while capacity < needed
          invariant 0 < capacity <= MAX_BUFFER && capacity >= buf.Length
          decreases MAX_BUFFER - capacity
        {
          if capacity > MAX_BUFFER / 2 {
            capacity := MAX_BUFFER;
            break;
          }
          capacity := capacity * 2;
        }
        var bigger := new Byte[capacity](_ => 0);
        forall i | 0 <= i < len {
          bigger[i] := buf[i];
        }
        assert bigger[..len] == buf[..len];
        buf := bigger;
      }
    }

    /** Hands on every complete frame and moves the rest to the front; stops at a length no writer sends. */
    method Drain(unit: nat) returns (frames: seq<Frame>, ok: bool)
      requires Valid() && unit > 0
      modifies this`len, buf
      ensures Valid()
      ensures var p := Parse(old(Held()), unit); frames == p.frames && Held() == p.rest && ok == !p.bad
    {
      frames, ok := [], true;
      ghost var held, all := Held(), Parse(Held(), unit);
      var more := true;
      assert Behind([], all) == all;
      while more
        invariant Valid() && held == Held()
        invariant if more then ok && Behind(frames, Parse(held, unit)) == all else all == Parsed(frames, held, !ok)
        decreases len, more
      {
        var front;
        front, ok := Pop(unit);
        more := front != [];
        if more {
          DrainStep(frames, held, unit);
        } else {
          DrainEnds(frames, held, unit);
        }
        frames, held := frames + front, Held();
      }
    }

    /** Takes the front frame if all of it is there; not ok is a length that no writer sends. */
    method Pop(unit: nat) returns (front: seq<Frame>, ok: bool)
      requires Valid() && unit > 0
      modifies this`len, buf
      ensures Valid()
      ensures ok == (|old(Held())| < HEADER || LengthOk(LengthOf(old(Held())), unit))
      ensures if FrontReady(old(Held()), unit)
              then front == [FrontFrame(old(Held()))] && Held() == old(Held())[HEADER + LengthOf(old(Held()))..]
              else front == [] && Held() == old(Held())
    {
      if len < HEADER {
        return [], true;
      }
      var n := LengthOf(buf[..len]);
      if n == 0 || n > MAX_FRAME || n % unit != 0 {
        return [], false;
      }
      if len < HEADER + n {
        return [], true;
      }
      front, ok := [FrontFrame(buf[..len])], true;
      Shift(HEADER + n);
    }

    method Shift(n: nat)
      requires Valid() && n <= len
      modifies this`len, buf
      ensures Valid() && Held() == old(Held())[n..]
    {
      len := len - n;
      forall i | 0 <= i < len {
        buf[i] := buf[n + i];
      }
    }
  }

  // ---------------------------------------------------------------- the ceiling

  /** A run of the child's input loop: it ends when a read does not fit or a length is bad. */
  predicate Survives(kept: seq<Byte>, chunks: seq<seq<Byte>>, unit: nat)
    requires unit > 0
    decreases |chunks|
  {
    chunks == [] ||
    (Accepts(|kept|, |chunks[0]|) &&
     var p := Parse(kept + chunks[0], unit);
     !p.bad && Survives(p.rest, chunks[1..], unit))
  }

  predicate Reads(chunks: seq<seq<Byte>>) {
    forall c :: c in chunks ==> 0 < |c| <= READ_SIZE
  }

  /** No frame comes within three bytes of the greatest length, unless too little follows it to matter. */
  predicate FitsCeiling(frames: seq<Sent>) {
    forall k :: 0 <= k < |frames| ==> |frames[k].payload| <= MAX_FRAME - 3 || |Wire(frames[k..])| <= MAX_BUFFER
  }

  /** Any cutting of the stream into the child's reads is taken in exactly when the stream fits the ceiling. */
  lemma NeverRefusedIff(frames: seq<Sent>, unit: nat)
    requires unit > 0 && AllOk(frames, unit)
    ensures (forall chunks :: Reads(chunks) && Joined(chunks) == Wire(frames) ==> Survives([], chunks, unit))
       <==> FitsCeiling(frames)
  {
    if FitsCeiling(frames) {
      forall chunks | Reads(chunks) && Joined(chunks) == Wire(frames) ensures Survives([], chunks, unit) {
        assert Wire(frames)[..0] == [];
        SurvivesWithin(frames, 0, chunks, unit);
      }
    } else {
      var k: nat :| k < |frames| && |frames[k].payload| > MAX_FRAME - 3 && |Wire(frames[k..])| > MAX_BUFFER;
      var chunks := RefusedCutting(frames, k, unit);
    }
  }

  lemma AcceptsWithin(frames: seq<Sent>, m: nat, n: nat)
    requires FitsCeiling(frames) && m + n <= |Wire(frames)| && n <= READ_SIZE
    requires frames == [] || m < |Encode(frames[0])|
    ensures Accepts(m, n)
  {
    if frames != [] {
      assert frames[0..] == frames;
    }
  }

  lemma FitsSuffix(frames: seq<Sent>, k: nat, unit: nat)
    requires unit > 0 && AllOk(frames, unit) && FitsCeiling(frames) && k <= |frames|
    ensures AllOk(frames[k..], unit) && FitsCeiling(frames[k..])
  {
    var rest := frames[k..];
    forall i | 0 <= i < |rest| ensures |rest[i].payload| <= MAX_FRAME - 3 || |Wire(rest[i..])| <= MAX_BUFFER {
      assert rest[i..] == frames[k + i..] && rest[i] == frames[k + i];
    }
    forall f | f in rest ensures LengthOk(|f.payload|, unit) {
      assert f in frames;
    }
  }

  lemma FirstRead(chunks: seq<seq<Byte>>, tail: seq<Byte>)
    requires chunks != [] && Reads(chunks) && Joined(chunks) == tail
    ensures 0 < |chunks[0]| <= READ_SIZE && |chunks[0]| <= |tail| && Reads(chunks[1..])
    ensures tail[..|chunks[0]|] == chunks[0] && tail[|chunks[0]|..] == Joined(chunks[1..])
  {
    assert chunks[0] in chunks;
  }

  /** What a reader has of a stream is frames and part of the next one, and the rest of the stream still fits. */
  lemma ReadWithin(frames: seq<Sent>, held: seq<Byte>, unit: nat) returns (k: nat, j: nat)
    requires unit > 0 && AllOk(frames, unit) && FitsCeiling(frames)
    requires |held| <= |Wire(frames)| && held == Wire(frames)[..|held|]
    ensures k <= |frames| && AllOk(frames[k..], unit) && FitsCeiling(frames[k..])
    ensures j <= |Wire(frames[k..])| && (frames[k..] == [] || j < |Encode(frames[k..][0])|)
    ensures Parse(held, unit) == Parsed(frames[..k], Wire(frames[k..])[..j], false)
    ensures Wire(frames)[|held|..] == Wire(frames[k..])[j..]
  {
    k, j := ParsePart(frames, |held|, unit);
    FitsSuffix(frames, k, unit);
  }

  /** With frames short of the ceiling the child never gives up. */
  lemma {:induction false} SurvivesWithin(frames: seq<Sent>, m: nat, chunks: seq<seq<Byte>>, unit: nat)
    requires unit > 0 && AllOk(frames, unit) && FitsCeiling(frames) && Reads(chunks)
    requires m <= |Wire(frames)| && Joined(chunks) == Wire(frames)[m..]
    requires frames == [] || m < |Encode(frames[0])|
    ensures Survives(Wire(frames)[..m], chunks, unit)
    decreases |chunks|
  {
    if chunks != [] {
      FirstRead(chunks, Wire(frames)[m..]);
      AcceptsWithin(frames, m, |chunks[0]|);
      TakeMore(Wire(frames), m, chunks[0]);
      var k, j := ReadWithin(frames, Wire(frames)[..m] + chunks[0], unit);
      SurvivesWithin(frames[k..], j, chunks[1..], unit);
      SurvivesStep(Wire(frames)[..m], chunks, unit);
    }
  }

  lemma SurvivesStep(kept: seq<Byte>, chunks: seq<seq<Byte>>, unit: nat)
    requires unit > 0 && chunks != [] && Accepts(|kept|, |chunks[0]|)
    requires !Parse(kept + chunks[0], unit).bad && Survives(Parse(kept + chunks[0], unit).rest, chunks[1..], unit)
    ensures Survives(kept, chunks, unit)
  {
  }

  lemma TakeMore<T>(s: seq<T>, m: nat, c: seq<T>)
    requires m + |c| <= |s| && s[m..][..|c|] == c
    ensures s[..m] + c == s[..m + |c|] && s[m..][|c|..] == s[m + |c|..]
  {
  }

  // ---------------------------------------------------------------- a cutting that is refused

  function Cut(b: seq<Byte>): seq<seq<Byte>>
    decreases |b|
  {
    if b == [] then [] else if |b| <= READ_SIZE then [b] else [b[..READ_SIZE]] + Cut(b[READ_SIZE..])
  }

  lemma {:induction false} CutReads(b: seq<Byte>)
    ensures Reads(Cut(b)) && Joined(Cut(b)) == b
    decreases |b|
  {
    if |b| > READ_SIZE {
      CutReads(b[READ_SIZE..]);
    }
  }

  lemma {:induction false} JoinedSplits(a: seq<seq<Byte>>, b: seq<seq<Byte>>)
    ensures Joined(a + b) == Joined(a) + Joined(b)
    decreases |a|
  {
    if a == [] {
      assert a + b == b;
    } else {
      assert (a + b)[1..] == a[1..] + b;
      JoinedSplits(a[1..], b);
    }
  }

  /** To survive a run is to take every read in the state the earlier reads have led to. */
  lemma {:induction false} SurvivalNeedsRoom(kept: seq<Byte>, before: seq<seq<Byte>>, c: seq<Byte>, after: seq<seq<Byte>>, unit: nat)
    requires unit > 0 && Survives(kept, before + [c] + after, unit)
    ensures Accepts(|Receive(kept, before, unit).rest|, |c|)
    decreases |before|
  {
    var all := before + [c] + after;
    if before == [] {
      assert all[0] == c;
    } else {
      assert all[0] == before[0] && all[1..] == before[1..] + [c] + after;
      SurvivalNeedsRoom(Parse(kept + before[0], unit).rest, before[1..], c, after, unit);
    }
  }

  lemma CutAround(wire: seq<Byte>, cut: nat, size: nat) returns (chunks: seq<seq<Byte>>)
    requires cut + size <= |wire| && 0 < size <= READ_SIZE
    ensures chunks == Cut(wire[..cut]) + [wire[cut..cut + size]] + Cut(wire[cut + size..])
    ensures Reads(chunks) && Joined(chunks) == wire && Joined(Cut(wire[..cut])) == wire[..cut]
  {
    var before, c, after := Cut(wire[..cut]), wire[cut..cut + size], Cut(wire[cut + size..]);
    CutReads(wire[..cut]);
    CutReads(wire[cut + size..]);
    chunks := before + [c] + after;
    JoinedSplits(before + [c], after);
    JoinedSplits(before, [c]);
    assert Joined([c]) == c;
    ThreeParts(wire, cut, size);
  }

  lemma ThreeParts<T>(s: seq<T>, cut: nat, size: nat)
    requires cut + size <= |s|
    ensures s == s[..cut] + s[cut..cut + size] + s[cut + size..]
  {
  }

  /** After the first n bytes of the wire so many are held, and nothing is wrong. */
  predicate Holding(wire: seq<Byte>, n: nat, unit: nat, held: nat)
    requires unit > 0
  {
    n <= |wire| && var p := Parse(wire[..n], unit); !p.bad && |p.rest| == held
  }

  /** In the middle of frame k the child holds what it has read of that frame. */
  lemma HeldWithin(frames: seq<Sent>, k: nat, held: nat, unit: nat)
    requires unit > 0 && AllOk(frames, unit) && k < |frames| && held < |Encode(frames[k])|
    ensures |Wire(frames[..k])| + |Wire(frames[k..])| == |Wire(frames)| && held <= |Wire(frames[k..])|
    ensures Holding(Wire(frames), |Wire(frames[..k])| + held, unit, held)
  {
    WireReaches(frames, k, held);
    ParseAt(frames, k, held, unit);
  }

  lemma WireReaches(frames: seq<Sent>, k: nat, held: nat)
    requires k < |frames| && held < |Encode(frames[k])|
    ensures held <= |Wire(frames[k..])| && |Wire(frames[..k])| + |Wire(frames[k..])| == |Wire(frames)|
    ensures Wire(frames)[..|Wire(frames[..k])| + held] == Wire(frames[..k]) + Wire(frames[k..])[..held]
  {
    WireSplits(frames, k);
    CutOfSum(Wire(frames), Wire(frames[..k]), Wire(frames[k..]), held);
  }

  lemma CutOfSum<T>(whole: seq<T>, a: seq<T>, b: seq<T>, n: nat)
    requires whole == a + b && n <= |b|
    ensures whole[..|a| + n] == a + b[..n]
  {
  }

  lemma RefusedAt(wire: seq<Byte>, cut: nat, size: nat, unit: nat) returns (chunks: seq<seq<Byte>>)
    requires unit > 0 && cut + size <= |wire| && 0 < size <= READ_SIZE
    requires var p := Parse(wire[..cut], unit); !p.bad && !Accepts(|p.rest|, size)
    ensures Reads(chunks) && Joined(chunks) == wire && !Survives([], chunks, unit)
  {
    chunks := CutAround(wire, cut, size);
    ReceiveWhole(wire[..cut], Cut(wire[..cut]), unit);
    if Survives([], chunks, unit) {
      SurvivalNeedsRoom([], Cut(wire[..cut]), wire[cut..cut + size], Cut(wire[cut + size..]), unit);
    }
  }

  /** One byte short of the end of a frame that long, a full read no longer fits. */
  lemma RefusedCutting(frames: seq<Sent>, k: nat, unit: nat) returns (chunks: seq<seq<Byte>>)
    requires unit > 0 && AllOk(frames, unit) && k < |frames|
    requires |frames[k].payload| > MAX_FRAME - 3 && |Wire(frames[k..])| > MAX_BUFFER
    ensures Reads(chunks) && Joined(chunks) == Wire(frames) && !Survives([], chunks, unit)
  {
    var held := HEADER + |frames[k].payload| - 1;
    HeldWithin(frames, k, held, unit);
    chunks := RefusedBehind(Wire(frames), Wire(frames[..k]), Wire(frames[k..]), held, unit);
  }

  /** A read that would take what is held just over the ceiling. */
  lemma RefusedBehind(wire: seq<Byte>, front: seq<Byte>, behind: seq<Byte>, held: nat, unit: nat)
    returns (chunks: seq<seq<Byte>>)
    requires unit > 0 && MAX_FRAME < held <= MAX_BUFFER < |behind| && |front| + |behind| == |wire|
    requires Holding(wire, |front| + held, unit, held)
    ensures Reads(chunks) && Joined(chunks) == wire && !Survives([], chunks, unit)
  {
    chunks := RefusedAt(wire, |front| + held, MAX_BUFFER + 1 - held, unit);
  }
}
