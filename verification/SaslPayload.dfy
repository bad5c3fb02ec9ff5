/** The SASL credential payload: base64 as section 4 of RFC 4648 defines it, cut into AUTHENTICATE
    chunks, and what a server reads back. */
module SaslPayload {

  type Byte = x: int | 0 <= x < 256

  const PAD: Byte := 0x3d
  const PLUS: Byte := 0x2b
  const CHUNK: nat := 400
  const LOGINLEN: nat := 240
  const PASSLEN: nat := 128

  datatype Option<T> = None | Some(value: T)

  // ---------------------------------------------------------------- base64

  function Letter(v: int): Byte
    requires 0 <= v < 64
  {
    if v < 26 then 0x41 + v
    else if v < 52 then 0x61 + v - 26
    else if v < 62 then 0x30 + v - 52
    else if v == 62 then 0x2b else 0x2f
  }

  /** The value of a letter, or -1 for a byte outside the alphabet. */
  function Value(c: Byte): (v: int)
    ensures -1 <= v < 64
  {
    if 0x41 <= c <= 0x5a then c - 0x41
    else if 0x61 <= c <= 0x7a then c - 0x61 + 26
    else if 0x30 <= c <= 0x39 then c - 0x30 + 52
    else if c == 0x2b then 62 else if c == 0x2f then 63 else -1
  }

  lemma ValueOfLetter(v: int)
    requires 0 <= v < 64
    ensures Value(Letter(v)) == v && Letter(v) != PAD
  {
  }

  function Bits(a: Byte, b: Byte, c: Byte): (v: int)
    ensures 0 <= v < 0x100_0000
  {
    a as int * 0x1_0000 + b as int * 0x100 + c as int
  }

  /** The i-th six bits of a group, from the top. */
  function Sextet(v: int, i: int): (s: int)
    requires 0 <= v < 0x100_0000 && 0 <= i < 4
    ensures 0 <= s < 64
  {
    if i == 0 then v / 64 / 64 / 64 else if i == 1 then v / 64 / 64 % 64 else if i == 2 then v / 64 % 64 else v % 64
  }

  /** The four letters of a group of n bytes. */
  function Letters(v: int, n: nat): (r: seq<Byte>)
    requires 0 <= v < 0x100_0000
    ensures |r| == 4
  {
    [Letter(Sextet(v, 0)), Letter(Sextet(v, 1)),
     if n > 1 then Letter(Sextet(v, 2)) else PAD,
     if n > 2 then Letter(Sextet(v, 3)) else PAD]
  }

  function At(p: seq<Byte>, i: nat): Byte {
    if i < |p| then p[i] else 0
  }

  /** The four letters for the first three bytes of a text, or for fewer if it ends. */
  function Group(p: seq<Byte>): (r: seq<Byte>)
    ensures |r| == 4
  {
    Letters(Bits(At(p, 0), At(p, 1), At(p, 2)), |p|)
  }

  function UpToThree(p: seq<Byte>): (n: nat)
    ensures n <= |p| && n <= 3 && (n < 3 ==> n == |p|)
  {
    if |p| < 3 then |p| else 3
  }

  function Grouped(f: seq<Byte> -> seq<Byte>, p: seq<Byte>): seq<Byte> {
    if p == [] then [] else f(p[..UpToThree(p)]) + Grouped(f, p[UpToThree(p)..])
  }

  function Base64(p: seq<Byte>): seq<Byte> {
    Grouped(Group, p)
  }

  /** What four letters stand for; padding is allowed only at the end of the text. */
  function Ungroup(g: seq<Byte>, last: bool): Option<seq<Byte>>
    requires |g| == 4
  {
    var a, b, c, d := Value(g[0]), Value(g[1]), Value(g[2]), Value(g[3]);
    if a < 0 || b < 0 then None
    else if g[3] != PAD then
      if c < 0 || d < 0 then None else Some(Bytes(a, b, c, d))
    else if !last then None
    else if g[2] != PAD then
      if c < 0 || c % 4 != 0 then None else Some(Bytes(a, b, c, 0)[..2])
    else if b % 16 != 0 then None else Some(Bytes(a, b, 0, 0)[..1])
  }

  function Bytes(a: int, b: int, c: int, d: int): (r: seq<Byte>)
    requires 0 <= a < 64 && 0 <= b < 64 && 0 <= c < 64 && 0 <= d < 64
    ensures |r| == 3
  {
    [a * 4 + b / 16, b % 16 * 16 + c / 4, c % 4 * 64 + d]
  }

  function Decode(s: seq<Byte>): Option<seq<Byte>> {
    if s == [] then Some([])
    else if |s| < 4 then None
    else
      match Ungroup(s[..4], |s| == 4)
      case None => None
      case Some(front) =>
        match Decode(s[4..])
        case None => None
        case Some(rest) => Some(front + rest)
  }

  lemma SixBits(v: int)
    requires 0 <= v < 0x100_0000
    ensures v == Sextet(v, 0) * 0x4_0000 + Sextet(v, 1) * 0x1000 + Sextet(v, 2) * 64 + Sextet(v, 3)
  {
    var p := v / 64;
    var q := p / 64;
    assert v == p * 64 + v % 64 && p == q * 64 + p % 64 && q == q / 64 * 64 + q % 64;
  }

  lemma SameDigits(x: int, y: int, z: int, p: int, q: int, r: int)
    requires 0 <= x < 256 && 0 <= y < 256 && 0 <= z < 256 && 0 <= p < 256 && 0 <= q < 256 && 0 <= r < 256
    requires x * 0x1_0000 + y * 0x100 + z == p * 0x1_0000 + q * 0x100 + r
    ensures x == p && y == q && z == r
  {
  }

  lemma EightBits(v: int, a: int, b: int, c: int, d: int)
    requires 0 <= a < 64 && 0 <= b < 64 && 0 <= c < 64 && 0 <= d < 64
    requires v == a * 0x4_0000 + b * 0x1000 + c * 64 + d
    ensures v == (a * 4 + b / 16) * 0x1_0000 + (b % 16 * 16 + c / 4) * 0x100 + (c % 4 * 64 + d)
  {
  }

  lemma GroupBytes(x: Byte, y: Byte, z: Byte, a: int, b: int, c: int, d: int)
    requires 0 <= a < 64 && 0 <= b < 64 && 0 <= c < 64 && 0 <= d < 64
    requires Bits(x, y, z) == a * 0x4_0000 + b * 0x1000 + c * 64 + d
    ensures a * 4 + b / 16 == x as int && b % 16 * 16 + c / 4 == y as int && c % 4 * 64 + d == z as int
  {
    EightBits(Bits(x, y, z), a, b, c, d);
    SameDigits(x as int, y as int, z as int, a * 4 + b / 16, b % 16 * 16 + c / 4, c % 4 * 64 + d);
  }

  lemma PaddingIsZero(b: int, c: int, d: int)
    requires 0 <= b < 64 && 0 <= c < 64 && 0 <= d < 64
    ensures c % 4 * 64 + d == 0 ==> d == 0 && c % 4 == 0
    ensures b % 16 * 16 + c / 4 == 0 && c % 4 == 0 ==> c == 0 && b % 16 == 0
  {
  }

  lemma LettersRead(v: int, n: nat, a: int, b: int, c: int, d: int)
    requires 0 <= v < 0x100_0000 && a == Sextet(v, 0) && b == Sextet(v, 1) && c == Sextet(v, 2) && d == Sextet(v, 3)
    ensures Value(Letters(v, n)[0]) == a && Value(Letters(v, n)[1]) == b
    ensures n > 1 ==> Value(Letters(v, n)[2]) == c && Letters(v, n)[2] != PAD
    ensures n > 2 ==> Value(Letters(v, n)[3]) == d && Letters(v, n)[3] != PAD
    ensures n <= 1 ==> Letters(v, n)[2] == PAD
    ensures n <= 2 ==> Letters(v, n)[3] == PAD
  {
    ValueOfLetter(a);
    ValueOfLetter(b);
    ValueOfLetter(c);
    ValueOfLetter(d);
  }

  /** Reading four letters whose values are known. */
  lemma UngroupOf(g: seq<Byte>, last: bool, n: nat, a: int, b: int, c: int, d: int)
    requires |g| == 4 && 1 <= n <= 3 && (n < 3 ==> last)
    requires 0 <= a < 64 && 0 <= b < 64 && 0 <= c < 64 && 0 <= d < 64
    requires Value(g[0]) == a && Value(g[1]) == b
    requires if n > 1 then Value(g[2]) == c && g[2] != PAD else g[2] == PAD && b % 16 == 0 && c == 0
    requires if n > 2 then Value(g[3]) == d && g[3] != PAD else g[3] == PAD && c % 4 == 0 && d == 0
    ensures Ungroup(g, last) == Some(Bytes(a, b, c, d)[..n])
  {
    assert Bytes(a, b, c, d)[..3] == Bytes(a, b, c, d);
  }

  lemma GroupRoundTrip(p: seq<Byte>, last: bool)
    requires 1 <= |p| <= 3 && (|p| < 3 ==> last)
    ensures Ungroup(Group(p), last).Some? && Ungroup(Group(p), last).value == p
  {
    var v := Bits(At(p, 0), At(p, 1), At(p, 2));
    var a, b, c, d := Sextet(v, 0), Sextet(v, 1), Sextet(v, 2), Sextet(v, 3);
    SextetsBack(At(p, 0), At(p, 1), At(p, 2), a, b, c, d);
    LettersRead(v, |p|, a, b, c, d);
    UngroupOf(Group(p), last, |p|, a, b, c, d);
    FirstBytes(p);
  }

  /** The four sextets give the three bytes back, and those that padding replaces are zero. */
  lemma SextetsBack(x: Byte, y: Byte, z: Byte, a: int, b: int, c: int, d: int)
    requires a == Sextet(Bits(x, y, z), 0) && b == Sextet(Bits(x, y, z), 1)
    requires c == Sextet(Bits(x, y, z), 2) && d == Sextet(Bits(x, y, z), 3)
    ensures Bytes(a, b, c, d) == [x, y, z]
    ensures z == 0 ==> d == 0 && c % 4 == 0
    ensures y == 0 && z == 0 ==> c == 0 && b % 16 == 0
  {
    SixBits(Bits(x, y, z));
    GroupBytes(x, y, z, a, b, c, d);
    PaddingIsZero(b, c, d);
  }

  lemma FirstBytes(p: seq<Byte>)
    requires 1 <= |p| <= 3
    ensures [At(p, 0), At(p, 1), At(p, 2)][..|p|] == p
  {
  }

  /** Decoding the encoder's output gives every input back. */
  lemma {:induction false} Base64RoundTrip(p: seq<Byte>)
    ensures Decode(Base64(p)).Some? && Decode(Base64(p)).value == p
  {
    if p != [] {
      var n := UpToThree(p);
      GroupedLength(Group, p[n..]);
      GroupRoundTrip(p[..n], p[n..] == []);
      Base64RoundTrip(p[n..]);
      DecodeStep(Group(p[..n]), Base64(p[n..]));
      assert p[..n] + p[n..] == p;
    }
  }

  lemma DecodeStep(group: seq<Byte>, rest: seq<Byte>)
    requires |group| == 4 && Ungroup(group, rest == []).Some? && Decode(rest).Some?
    ensures Decode(group + rest).Some?
    ensures Decode(group + rest).value == Ungroup(group, rest == []).value + Decode(rest).value
  {
    assert (group + rest)[..4] == group && (group + rest)[4..] == rest;
  }

  lemma {:induction false} GroupedLength(f: seq<Byte> -> seq<Byte>, p: seq<Byte>)
    requires forall g :: |f(g)| == 4
    ensures |Grouped(f, p)| == 4 * ((|p| + 2) / 3) && |Grouped(f, p)| % 4 == 0
  {
    if p != [] {
      GroupedLength(f, p[UpToThree(p)..]);
    }
  }

  /** Fills a buffer with the encoding, three bytes at a time. */
  method Encode(plain: seq<Byte>, encoded: array<Byte>) returns (length: nat)
    requires encoded.Length >= 4 * ((|plain| + 2) / 3)
    modifies encoded
    ensures length <= encoded.Length && encoded[..length] == Base64(plain)
  {
    length := 0;
    GroupedLength(Group, plain);
    var i := 0;
    while i < |plain|
      invariant 0 <= i && length <= encoded.Length
      invariant encoded[..length] + Base64(Rest(plain, i)) == Base64(plain)
      decreases |plain| - i
    {
      var value := plain[i] as int * 0x1_0000;
      if i + 1 < |plain| {
        value := value + plain[i + 1] as int * 0x100;
      }
      if i + 2 < |plain| {
        value := value + plain[i + 2] as int;
      }
      assert value == Bits(At(plain, i), At(plain, i + 1), At(plain, i + 2));
      EncodeMore(plain, i, encoded[..length]);
      PutLetters(encoded, length, value, |plain| - i);
      length := length + 4;
      i := i + 3;
    }
    assert encoded[..length] + [] == encoded[..length];
  }

  lemma EncodedStep(f: seq<Byte> -> seq<Byte>, done: seq<Byte>, rest: seq<Byte>, whole: seq<Byte>)
    requires rest != [] && done + Grouped(f, rest) == whole && forall g :: |f(g)| == 4
    ensures var n := UpToThree(rest);
            |done| + 4 <= |whole| && done + f(rest[..n]) + Grouped(f, rest[n..]) == whole
  {
    var n := UpToThree(rest);
    assert |f(rest[..n])| == 4;
    assert done + f(rest[..n]) + Grouped(f, rest[n..]) == done + (f(rest[..n]) + Grouped(f, rest[n..]));
  }

  lemma GroupAt(p: seq<Byte>, i: nat)
    requires i < |p|
    ensures Group(p[i..][..UpToThree(p[i..])]) == Letters(Bits(At(p, i), At(p, i + 1), At(p, i + 2)), |p| - i)
  {
  }

  function Rest(p: seq<Byte>, i: nat): seq<Byte> {
    if i < |p| then p[i..] else []
  }

  lemma EncodeMore(p: seq<Byte>, i: nat, done: seq<Byte>)
    requires i < |p| && done + Base64(Rest(p, i)) == Base64(p)
    ensures var letters := Letters(Bits(At(p, i), At(p, i + 1), At(p, i + 2)), |p| - i);
            |done| + 4 <= |Base64(p)| && done + letters + Base64(Rest(p, i + 3)) == Base64(p)
  {
    GroupAt(p, i);
    EncodedStep(Group, done, p[i..], Base64(p));
    assert p[i..][UpToThree(p[i..])..] == Rest(p, i + 3);
  }

  /** Stores the letters of a group that has left bytes from its first on. */
  method PutLetters(a: array<Byte>, at: nat, value: int, left: nat)
    requires at + 4 <= a.Length && 0 <= value < 0x100_0000
    modifies a
    ensures a[..at + 4] == old(a[..at]) + Letters(value, left)
  {
    a[at] := Letter(Sextet(value, 0));
    a[at + 1] := Letter(Sextet(value, 1));
    a[at + 2] := if left > 1 then Letter(Sextet(value, 2)) else PAD;
    a[at + 3] := if left > 2 then Letter(Sextet(value, 3)) else PAD;
  }

  // ---------------------------------------------------------------- chunks

  function Pieces(e: seq<Byte>): (r: seq<seq<Byte>>)
    decreases |e|
  {
    if |e| == 0 then [] else if |e| <= CHUNK then [e] else [e[..CHUNK]] + Pieces(e[CHUNK..])
  }

  /** The AUTHENTICATE parameters for an encoded text: an exact multiple of a chunk is closed with a plus. */
  function Chunks(e: seq<Byte>): seq<seq<Byte>> {
    Pieces(e) + if |e| % CHUNK == 0 then [[PLUS]] else []
  }

  /** What a server collects: full chunks continue, a short one or a plus ends; the rest is left over. */
  function Collect(lines: seq<seq<Byte>>): Collected {
    if lines == [] || |lines[0]| > CHUNK then Unfinished
    else if lines[0] == [PLUS] then Collected([], lines[1..])
    else if |lines[0]| < CHUNK then Collected(lines[0], lines[1..])
    else
      match Collect(lines[1..])
      case Unfinished => Unfinished
      case Collected(text, over) => Collected(lines[0] + text, over)
  }

  datatype Collected = Unfinished | Collected(text: seq<Byte>, over: seq<seq<Byte>>)

  /** The chunks reassemble to the text and nothing is left over, whatever its length. */
  lemma {:induction false} ChunksReassemble(e: seq<Byte>)
    requires |e| % 4 == 0
    ensures var c := Collect(Chunks(e)); c.Collected? && c.text == e && c.over == []
    decreases |e|
  {
    if |e| > CHUNK {
      ChunksReassemble(e[CHUNK..]);
      assert Chunks(e)[1..] == Chunks(e[CHUNK..]);
      assert e[..CHUNK] + e[CHUNK..] == e;
    } else if |e| == CHUNK {
      assert Chunks(e)[1..] == [[PLUS]];
      assert Collect([[PLUS]]).text == [] && [[PLUS]][1..] == [];
      assert e + [] == e;
    }
  }

  /** Every piece but the last is exactly a chunk long, and none is longer. */
  lemma {:induction false} PiecesAreFull(e: seq<Byte>, i: nat)
    requires i < |Pieces(e)|
    ensures 0 < |Pieces(e)[i]| <= CHUNK && (i + 1 < |Pieces(e)| ==> |Pieces(e)[i]| == CHUNK)
    decreases |e|
  {
    if |e| > CHUNK && i > 0 {
      PiecesAreFull(e[CHUNK..], i - 1);
    }
  }

  // ---------------------------------------------------------------- PLAIN, section 2 of RFC 4616

  datatype Credentials = Credentials(user: seq<Byte>, pass: seq<Byte>, external: bool) {
    /** C strings in fixed buffers. */
    predicate Valid() {
      0 !in user && 0 !in pass && |user| <= LOGINLEN && |pass| <= PASSLEN
    }
  }

  function Plain(c: Credentials): seq<Byte> {
    [0] + c.user + [0] + c.pass
  }

  /** The bytes up to the first NUL, or all of them. */
  function UpToNul(s: seq<Byte>): (n: nat)
    ensures n <= |s| && (n < |s| ==> s[n] == 0)
    ensures forall i :: 0 <= i < n ==> s[i] != 0
  {
    if s == [] || s[0] == 0 then 0 else 1 + UpToNul(s[1..])
  }

  /** A server's reading of a PLAIN message: authorization identity, user and password between NULs. */
  function ReadPlain(s: seq<Byte>): Reading {
    var i := UpToNul(s);
    if i == |s| then Malformed
    else
      var rest := s[i + 1..];
      var j := UpToNul(rest);
      if j == |rest| || 0 in rest[j + 1..] then Malformed else Reading(s[..i], rest[..j], rest[j + 1..])
  }

  datatype Reading = Malformed | Reading(identity: seq<Byte>, user: seq<Byte>, pass: seq<Byte>)

  lemma {:induction false} NulBehind(front: seq<Byte>, behind: seq<Byte>)
    requires 0 !in front
    ensures UpToNul(front + [0] + behind) == |front|
    ensures (front + [0] + behind)[..|front|] == front && (front + [0] + behind)[|front| + 1..] == behind
  {
    var s := front + [0] + behind;
    assert s[|front|] == 0;
    assert forall i :: 0 <= i < |front| ==> s[i] == front[i];
  }

  lemma PlainReadsBack(c: Credentials)
    requires c.Valid()
    ensures var r := ReadPlain(Plain(c)); r.Reading? && r.identity == [] && r.user == c.user && r.pass == c.pass
  {
    assert Plain(c) == [] + [0] + (c.user + [0] + c.pass);
    NulBehind([], c.user + [0] + c.pass);
    NulBehind(c.user, c.pass);
  }

  /** The AUTHENTICATE parameters that answer the server's prompt. */
  function Payload(c: Credentials): seq<seq<Byte>> {
    if c.external then [[PLUS]] else Chunks(Base64(Plain(c)))
  }

  /** From the payload a server reads exactly the configured user and password with no authorization identity,
      or an empty response for EXTERNAL, and no line is left over. */
  lemma PayloadReadsBack(c: Credentials)
    requires c.Valid()
    ensures Collect(Payload(c)).Collected? && Collect(Payload(c)).over == []
    ensures c.external ==> Collect(Payload(c)).text == []
    ensures !c.external ==>
              var text := Decode(Collect(Payload(c)).text);
              && text.Some? && ReadPlain(text.value).Reading? && ReadPlain(text.value).identity == []
              && ReadPlain(text.value).user == c.user && ReadPlain(text.value).pass == c.pass
  {
    if c.external {
      assert [[PLUS]][1..] == [];
    } else {
      TextReadsBack(Plain(c));
      PlainReadsBack(c);
    }
  }

  lemma TextReadsBack(p: seq<Byte>)
    ensures var c := Collect(Chunks(Base64(p)));
            c.Collected? && c.over == [] && Decode(c.text).Some? && Decode(c.text).value == p
  {
    var e := Base64(p);
    assert |e| % 4 == 0 by {
      GroupedLength(Group, p);
    }
    ChunksReassemble(e);
    Base64RoundTrip(p);
  }
}
