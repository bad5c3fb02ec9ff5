/** DCC CHAT and SEND offers: reading a request, writing one, and that the two are inverse. */
module DccOffer {

  import opened DccText

  const CTCP: Byte := 1
  const MESSAGE_MAX: nat := 1024
  const NAME_MAX: nat := 255
  const PORT_MAX: nat := 65535
  const SIZE_MAX: nat := 0x7fff_ffff_ffff_ffff
  const WORD_MAX: nat := 0xffff_ffff
  const LONG_MAX: nat := 0xffff_ffff_ffff_ffff

  const DCC: seq<Byte> := [0x44, 0x43, 0x43]
  const CHAT: seq<Byte> := [0x43, 0x48, 0x41, 0x54]
  const SEND: seq<Byte> := [0x53, 0x45, 0x4e, 0x44]
  const CHAT_NAME: seq<Byte> := [0x63, 0x68, 0x61, 0x74]

  // ---------------------------------------------------------------- fields

  /** One field as it may be written: bare, or between quotes. */
  datatype Item = Bare(text: seq<Byte>) | Quoted(text: seq<Byte>)

  predicate Writable(item: Item) {
    match item
    case Bare(text) => text != [] && SPACE !in text && text[0] != QUOTE
    case Quoted(text) => QUOTE !in text
  }

  function Written(item: Item): (t: seq<Byte>)
    ensures Writable(item) ==> t != []
  {
    match item
    case Bare(text) => text
    case Quoted(text) => [QUOTE] + text + [QUOTE]
  }

  predicate AllWritable(items: seq<Item>) {
    forall i :: 0 <= i < |items| ==> Writable(items[i])
  }

  function Request(items: seq<Item>): (t: seq<Byte>)
    ensures items != [] && AllWritable(items) ==> t != []
  {
    if items == [] then []
    else if |items| == 1 then Written(items[0])
    else Written(items[0]) + [SPACE] + Request(items[1..])
  }

  function Texts(items: seq<Item>): (r: seq<seq<Byte>>)
    ensures |r| == |items|
  {
    if items == [] then [] else [items[0].text] + Texts(items[1..])
  }

  /** The first field of a request, and what follows it: nothing, or the text behind exactly one space. */
  datatype First = Bad | Field(item: Item, rest: seq<Byte>)

  function FirstField(t: seq<Byte>): First {
    if t == [] || t[0] == SPACE then Bad
    else if t[0] == QUOTE then
      var i := IndexOf(t[1..], QUOTE);
      if i == |t| - 1 then Bad
      else Behind(Quoted(t[1..][..i]), t[1..][i + 1..])
    else
      var i := IndexOf(t, SPACE);
      Behind(Bare(t[..i]), t[i..])
  }

  function Behind(item: Item, t: seq<Byte>): First {
    if t == [] then Field(item, [])
    else if t[0] != SPACE || |t| == 1 then Bad
    else Field(item, t[1..])
  }

  /** All fields of a request, at most room of them. */
  function Items(t: seq<Byte>, room: nat): Option<seq<Item>> {
    ItemsBy(FirstField, t, room)
  }

  function ItemsBy(first: seq<Byte> -> First, t: seq<Byte>, room: nat): Option<seq<Item>>
    decreases room
  {
    if t == [] then Some([])
    else if room == 0 then None
    else
      match first(t)
      case Bad => None
      case Field(item, rest) =>
        match ItemsBy(first, rest, room - 1)
        case None => None
        case Some(more) => Some([item] + more)
  }

  lemma FirstOfRequest(item: Item, rest: seq<Byte>)
    requires Writable(item)
    ensures FirstField(Written(item)) == Field(item, [])
    ensures rest != [] ==> FirstField(Written(item) + [SPACE] + rest) == Field(item, rest)
  {
    var t := Written(item);
    match item
    case Bare(text) =>
      IndexNowhere(text, SPACE);
      IndexBehind(text, SPACE, rest);
      assert (text + [SPACE] + rest)[|text|..] == [SPACE] + rest;
      assert ([SPACE] + rest)[1..] == rest && text[..|text|] == text;
    case Quoted(text) =>
      IndexBehind(text, QUOTE, []);
      IndexBehind(text, QUOTE, [SPACE] + rest);
      assert t[1..] == text + [QUOTE] + [];
      assert (t + [SPACE] + rest)[1..] == text + [QUOTE] + ([SPACE] + rest);
      assert ([SPACE] + rest)[1..] == rest;
  }

  lemma RequestStep(item: Item, more: seq<Item>)
    requires Writable(item) && AllWritable(more)
    ensures AllWritable([item] + more)
    ensures Request([item] + more) == Written(item) + if more == [] then [] else [SPACE] + Request(more)
  {
    assert ([item] + more)[1..] == more;
    assert Written(item) + [] == Written(item);
  }

  lemma FirstOfMany(item: Item, more: seq<Item>)
    requires Writable(item) && AllWritable(more)
    ensures FirstField(Request([item] + more)) == Field(item, Request(more))
  {
    RequestStep(item, more);
    FirstOfRequest(item, Request(more));
    assert Written(item) + [] == Written(item);
    assert Written(item) + ([SPACE] + Request(more)) == Written(item) + [SPACE] + Request(more);
  }

  lemma {:induction false} WrittenIsReadBy(first: seq<Byte> -> First, write: seq<Item> -> seq<Byte>,
                                           items: seq<Item>, room: nat)
    requires |items| <= room && write([]) == []
    requires forall i :: 0 <= i < |items| ==> first(write(items[i..])) == Field(items[i], write(items[i + 1..]))
    requires forall i :: 0 <= i < |items| ==> write(items[i..]) != []
    ensures ItemsBy(first, write(items), room).Some? && ItemsBy(first, write(items), room).value == items
    decreases |items|
  {
    if items != [] {
      var more := items[1..];
      assert items[0..] == items && [items[0]] + more == items;
      assert first(write(items)) == Field(items[0], write(more));
      forall i | 0 <= i < |more|
        ensures first(write(more[i..])) == Field(more[i], write(more[i + 1..])) && write(more[i..]) != []
      {
        assert more[i..] == items[i + 1..] && more[i + 1..] == items[i + 2..];
      }
      WrittenIsReadBy(first, write, more, room - 1);
    }
  }

  lemma WrittenAt(items: seq<Item>, i: nat)
    requires AllWritable(items) && i < |items|
    ensures FirstField(Request(items[i..])) == Field(items[i], Request(items[i + 1..])) && Request(items[i..]) != []
  {
    var more := items[i + 1..];
    assert [items[i]] + more == items[i..];
    FirstOfMany(items[i], more);
  }

  /** What is written field by field is read back field by field. */
  lemma WrittenIsRead(items: seq<Item>, room: nat)
    requires AllWritable(items) && |items| <= room
    ensures Items(Request(items), room).Some? && Items(Request(items), room).value == items
  {
    forall i | 0 <= i < |items|
      ensures FirstField(Request(items[i..])) == Field(items[i], Request(items[i + 1..])) && Request(items[i..]) != []
    {
      WrittenAt(items, i);
    }
    WrittenIsReadBy(FirstField, Request, items, room);
  }

  lemma BehindSpace(item: Item, t: seq<Byte>)
    requires Behind(item, t).Field?
    ensures var rest := Behind(item, t).rest; t == if rest == [] then [] else [SPACE] + rest
  {
  }

  lemma QuotedParts<T>(t: seq<T>, i: nat)
    requires t != [] && i < |t[1..]|
    ensures t == [t[0]] + t[1..][..i] + [t[1..][i]] + t[1..][i + 1..]
  {
  }

  lemma FirstIsWritten(t: seq<Byte>)
    requires FirstField(t).Field?
    ensures Writable(FirstField(t).item)
    ensures var f := FirstField(t); t == Written(f.item) + if f.rest == [] then [] else [SPACE] + f.rest
  {
    if t[0] == QUOTE {
      var i := IndexOf(t[1..], QUOTE);
      BehindSpace(Quoted(t[1..][..i]), t[1..][i + 1..]);
      QuotedParts(t, i);
    } else {
      var i := IndexOf(t, SPACE);
      BehindSpace(Bare(t[..i]), t[i..]);
      assert t == t[..i] + t[i..];
    }
  }

  lemma {:induction false} ReadIsWrittenBy(first: seq<Byte> -> First, t: seq<Byte>, room: nat)
    requires ItemsBy(first, t, room).Some?
    requires forall u :: first(u).Field? ==>
               && Writable(first(u).item)
               && u == Written(first(u).item) + if first(u).rest == [] then [] else [SPACE] + first(u).rest
    ensures var items := ItemsBy(first, t, room).value; AllWritable(items) && |items| <= room && Request(items) == t
    decreases room
  {
    if t != [] {
      var f := first(t);
      ReadIsWrittenBy(first, f.rest, room - 1);
      RequestStep(f.item, ItemsBy(first, f.rest, room - 1).value);
    }
  }

  /** Every request that is read is the writing of its fields: nothing else is accepted. */
  lemma ReadIsWritten(t: seq<Byte>, room: nat)
    requires Items(t, room).Some?
    ensures var items := Items(t, room).value; AllWritable(items) && |items| <= room && Request(items) == t
  {
    forall u | FirstField(u).Field?
      ensures Writable(FirstField(u).item)
      ensures u == Written(FirstField(u).item) + if FirstField(u).rest == [] then [] else [SPACE] + FirstField(u).rest
    {
      FirstIsWritten(u);
    }
    ReadIsWrittenBy(FirstField, t, room);
  }

  // ---------------------------------------------------------------- offers

  datatype Kind = Chat | Send

  datatype Offer = Offer(kind: Kind, sizeKnown: bool, filename: seq<Byte>, ip: seq<Byte>, port: nat, size: nat)

  function Fold(b: Byte): Byte {
    if 0x41 <= b <= 0x5a then b + 32 else b
  }

  predicate SameWord(s: seq<Byte>, t: seq<Byte>) {
    |s| == |t| && forall i :: 0 <= i < |s| ==> Fold(s[i]) == Fold(t[i])
  }

  predicate NameByte(b: Byte) {
    b >= 0x20 && b != 127 && b != 0x2f && b != 0x5c && b != QUOTE
  }

  /** A name without a path, a quote or a control character, and not a directory's own name. */
  predicate FilenameValid(n: seq<Byte>) {
    && 1 <= |n| <= NAME_MAX && n != [DOT] && n != [DOT, DOT]
    && forall i :: 0 <= i < |n| ==> NameByte(n[i])
  }

  /** The address field: a plain number or a dotted address. */
  function AddressField(t: seq<Byte>): Option<nat> {
    if Decimal(t, WORD_MAX).Some? then Decimal(t, WORD_MAX) else ReadAddress(t)
  }

  predicate KindFields(f: seq<seq<Byte>>)
    requires |f| >= 5
  {
    || (SameWord(f[1], CHAT) && |f| == 5 && SameWord(f[2], CHAT_NAME))
    || (!SameWord(f[1], CHAT) && SameWord(f[1], SEND) && FilenameValid(f[2]))
  }

  predicate NumberFields(f: seq<seq<Byte>>)
    requires |f| >= 5
  {
    && AddressField(f[3]).Some? && AddressField(f[3]).value != 0 && AddressField(f[3]).value != WORD_MAX
    && Decimal(f[4], PORT_MAX).Some? && Decimal(f[4], PORT_MAX).value != 0
    && (|f| == 6 ==> Decimal(f[5], SIZE_MAX).Some?)
  }

  function OfferOf(f: seq<seq<Byte>>): Offer
    requires 5 <= |f| <= 6 && NumberFields(f)
  {
    var chat := SameWord(f[1], CHAT);
    Offer(if chat then Chat else Send, !chat && |f| == 6, if chat then [] else f[2],
          ShowAddress(AddressField(f[3]).value), Decimal(f[4], PORT_MAX).value,
          if |f| == 6 then Decimal(f[5], SIZE_MAX).value else 0)
  }

  function DecodeFields(f: seq<seq<Byte>>): Option<Offer>
    requires |f| <= 6
  {
    if |f| < 5 || !SameWord(f[0], DCC) || !KindFields(f) || !NumberFields(f) then None else Some(OfferOf(f))
  }

  predicate Framed(payload: seq<Byte>) {
    2 <= |payload| < MESSAGE_MAX && payload[0] == CTCP && payload[|payload| - 1] == CTCP
  }

  function FieldsIn(t: seq<Byte>, room: nat): Option<seq<seq<Byte>>> {
    match Items(t, room)
    case None => None
    case Some(items) => Some(Texts(items))
  }

  function Fields(t: seq<Byte>): Option<seq<seq<Byte>>> {
    FieldsIn(t, 6)
  }

  lemma {:induction false} FewFields(first: seq<Byte> -> First, t: seq<Byte>, room: nat)
    ensures ItemsBy(first, t, room).Some? ==> |ItemsBy(first, t, room).value| <= room
    decreases room
  {
    if t != [] && room > 0 && first(t).Field? {
      FewFields(first, first(t).rest, room - 1);
    }
  }

  function Decode(payload: seq<Byte>): Option<Offer> {
    if !Framed(payload) then None
    else
      match Fields(payload[1..|payload| - 1])
      case None => None
      case Some(f) =>
        FewFields(FirstField, payload[1..|payload| - 1], 6);
        DecodeFields(f)
  }

  /** The text of an offer between its CTCP marks. */
  function Text(o: Offer, address: nat): seq<Byte> {
    DCC + [SPACE]
    + (if o.kind == Send then SEND + [SPACE, QUOTE] + o.filename + [QUOTE] else CHAT + [SPACE] + CHAT_NAME)
    + [SPACE] + Show(address) + [SPACE] + Show(o.port)
    + if o.kind == Send && o.sizeKnown then [SPACE] + Show(o.size) else []
  }

  /** An offer is written and then read back before it is sent. */
  function Encode(o: Offer): Option<seq<Byte>> {
    if o.kind == Send && !FilenameValid(o.filename) then None
    else
      match ReadAddress(o.ip)
      case None => None
      case Some(address) =>
        var payload := [CTCP] + Text(o, address) + [CTCP];
        if |payload| >= MESSAGE_MAX || Decode(payload).None? then None else Some(payload)
  }

  // ---------------------------------------------------------------- printing and parsing are inverse

  /** The offers that can be made, as a caller can check before asking. */
  predicate Valid(o: Offer) {
    && (o.kind == Send ==> FilenameValid(o.filename))
    && ReadAddress(o.ip).Some? && ReadAddress(o.ip).value != 0 && ReadAddress(o.ip).value != WORD_MAX
    && 1 <= o.port <= PORT_MAX
    && (o.kind == Send && o.sizeKnown ==> o.size <= SIZE_MAX)
  }

  /** A chat carries no file, and an unknown size is no size. */
  function Normal(o: Offer): Offer {
    if o.kind == Chat then o.(sizeKnown := false, filename := [], size := 0)
    else if !o.sizeKnown then o.(size := 0)
    else o
  }

  function Sized(o: Offer): bool {
    o.kind == Send && o.sizeKnown
  }

  function KindItems(o: Offer): seq<Item> {
    if o.kind == Send then [Bare(SEND), Quoted(o.filename)] else [Bare(CHAT), Bare(CHAT_NAME)]
  }

  function OfferItems(o: Offer, address: nat): seq<Item> {
    [Bare(DCC)] + KindItems(o) + [Bare(Show(address)), Bare(Show(o.port))]
    + if Sized(o) then [Bare(Show(o.size))] else []
  }

  function OfferFields(o: Offer, address: nat): seq<seq<Byte>> {
    [DCC, if o.kind == Send then SEND else CHAT, if o.kind == Send then o.filename else CHAT_NAME,
     Show(address), Show(o.port)]
    + if Sized(o) then [Show(o.size)] else []
  }

  lemma ShownIsBare(n: nat)
    ensures Writable(Bare(Show(n)))
  {
    ShowReads(n);
    assert !IsDigit(SPACE) && !IsDigit(QUOTE);
  }

  lemma NameIsQuotable(n: seq<Byte>)
    requires FilenameValid(n)
    ensures QUOTE !in n
  {
    assert !NameByte(QUOTE);
  }

  lemma WordsAreBare()
    ensures Writable(Bare(DCC)) && Writable(Bare(SEND)) && Writable(Bare(CHAT)) && Writable(Bare(CHAT_NAME))
  {
  }

  lemma OfferIsWritable(o: Offer, address: nat)
    requires o.kind == Send ==> FilenameValid(o.filename)
    ensures AllWritable(OfferItems(o, address)) && 5 <= |OfferItems(o, address)| <= 6
  {
    WordsAreBare();
    ShownIsBare(address);
    ShownIsBare(o.port);
    ShownIsBare(o.size);
    if o.kind == Send {
      NameIsQuotable(o.filename);
    }
  }

  lemma RequestOfMany(item: Item, more: seq<Item>)
    requires more != []
    ensures Request([item] + more) == Written(item) + [SPACE] + Request(more)
  {
    assert ([item] + more)[1..] == more;
  }

  lemma RequestOfTwo(a: Item, b: Item)
    ensures Request([a, b]) == Written(a) + [SPACE] + Written(b)
  {
    RequestOfMany(a, [b]);
    assert [a, b] == [a] + [b];
  }

  lemma RequestOfThree(a: Item, b: Item, c: Item)
    ensures Request([a, b] + [c]) == Written(a) + [SPACE] + Written(b) + ([SPACE] + Written(c))
  {
    RequestOfTwo(b, c);
    RequestOfMany(a, [b, c]);
    ListOfThree(a, b, c);
    TailLast(Written(a), Written(b), Written(c));
  }

  lemma ListOfThree<T>(a: T, b: T, c: T)
    ensures [a, b] + [c] == [a] + [b, c]
  {
  }

  lemma TailLast(x: seq<Byte>, y: seq<Byte>, z: seq<Byte>)
    ensures x + [SPACE] + (y + [SPACE] + z) == x + [SPACE] + y + ([SPACE] + z)
  {
  }

  lemma RequestOfNumbers(o: Offer, address: nat)
    ensures Request([Bare(Show(address)), Bare(Show(o.port))] + if Sized(o) then [Bare(Show(o.size))] else [])
         == Tail(o, address)
  {
    var a, p, z := Bare(Show(address)), Bare(Show(o.port)), Bare(Show(o.size));
    if Sized(o) {
      RequestOfThree(a, p, z);
    } else {
      RequestOfTwo(a, p);
      assert [a, p] + [] == [a, p];
    }
  }

  lemma Regroup(x: seq<Byte>, y: seq<Byte>, z: seq<Byte>, rest: seq<Byte>)
    ensures x + [SPACE] + (y + [SPACE] + (z + [SPACE] + rest)) == x + [SPACE] + (y + [SPACE] + z) + [SPACE] + rest
  {
  }

  function Tail(o: Offer, address: nat): seq<Byte> {
    Show(address) + [SPACE] + Show(o.port) + if Sized(o) then [SPACE] + Show(o.size) else []
  }

  function Head(o: Offer): seq<Byte> {
    if o.kind == Send then SEND + [SPACE, QUOTE] + o.filename + [QUOTE] else CHAT + [SPACE] + CHAT_NAME
  }

  lemma TextParts(o: Offer, address: nat)
    ensures Text(o, address) == DCC + [SPACE] + Head(o) + [SPACE] + Tail(o, address)
  {
    var size := if Sized(o) then [SPACE] + Show(o.size) else [];
    assert DCC + [SPACE] + Head(o) + [SPACE] + Show(address) + [SPACE] + Show(o.port) + size
        == DCC + [SPACE] + Head(o) + [SPACE] + (Show(address) + [SPACE] + Show(o.port) + size);
  }

  /** The text of an offer is the writing of its fields. */
  lemma TextIsRequest(o: Offer, address: nat)
    ensures Request(OfferItems(o, address)) == Text(o, address)
  {
    var numbers := [Bare(Show(address)), Bare(Show(o.port))] + if Sized(o) then [Bare(Show(o.size))] else [];
    var k := KindItems(o);
    assert OfferItems(o, address) == [Bare(DCC)] + ([k[0]] + ([k[1]] + numbers));
    RequestOfMany(Bare(DCC), [k[0]] + ([k[1]] + numbers));
    RequestOfMany(k[0], [k[1]] + numbers);
    RequestOfMany(k[1], numbers);
    RequestOfNumbers(o, address);
    Regroup(DCC, Written(k[0]), Written(k[1]), Tail(o, address));
    TextParts(o, address);
    HeadIsWritten(o);
  }

  lemma HeadIsWritten(o: Offer)
    ensures Head(o) == Written(KindItems(o)[0]) + [SPACE] + Written(KindItems(o)[1])
  {
    assert SEND + [SPACE] + ([QUOTE] + o.filename + [QUOTE]) == SEND + [SPACE, QUOTE] + o.filename + [QUOTE];
  }

  lemma OfferTexts(o: Offer, address: nat)
    ensures Texts(OfferItems(o, address)) == OfferFields(o, address)
  {
    TextsAt(OfferItems(o, address));
  }

  lemma {:induction false} TextsAt(items: seq<Item>)
    ensures forall i :: 0 <= i < |items| ==> Texts(items)[i] == items[i].text
  {
    if items != [] {
      TextsAt(items[1..]);
    }
  }

  lemma FieldsOfText(o: Offer, address: nat)
    requires o.kind == Send ==> FilenameValid(o.filename)
    ensures Fields(Text(o, address)).Some? && Fields(Text(o, address)).value == OfferFields(o, address)
  {
    OfferIsWritable(o, address);
    TextIsRequest(o, address);
    WrittenIsRead(OfferItems(o, address), 6);
    OfferTexts(o, address);
  }

  /** Every offer that can be printed at all fits a message. */
  lemma TextIsShort(o: Offer, address: nat)
    requires address <= WORD_MAX && o.port <= WORD_MAX && o.size <= LONG_MAX && (o.kind == Send ==> |o.filename| <= NAME_MAX)
    ensures 2 <= |[CTCP] + Text(o, address) + [CTCP]| < MESSAGE_MAX
  {
    assert Pow10(10) == 10000000000 && Pow10(20) == 100000000000000000000;
    ShowIsShort(address, 10);
    ShowIsShort(o.port, 10);
    ShowIsShort(o.size, 20);
    TextParts(o, address);
  }

  lemma DecimalOfShow(n: nat, maximum: nat)
    ensures Decimal(Show(n), maximum) == if n <= maximum then Some(n) else None
  {
    ShowReads(n);
  }

  lemma WordsDiffer()
    ensures SameWord(DCC, DCC) && SameWord(CHAT, CHAT) && SameWord(CHAT_NAME, CHAT_NAME) && SameWord(SEND, SEND)
    ensures !SameWord(SEND, CHAT)
  {
    assert Fold(SEND[0]) != Fold(CHAT[0]);
  }

  lemma KindOfFields(o: Offer, address: nat)
    requires o.kind == Send ==> FilenameValid(o.filename)
    ensures var f := OfferFields(o, address);
            SameWord(f[0], DCC) && KindFields(f) && (SameWord(f[1], CHAT) <==> o.kind == Chat)
  {
    WordsDiffer();
  }

  lemma NumbersOfFields(o: Offer, address: nat)
    requires address <= WORD_MAX
    ensures NumberFields(OfferFields(o, address)) <==>
              address != 0 && address != WORD_MAX && 1 <= o.port <= PORT_MAX && (Sized(o) ==> o.size <= SIZE_MAX)
    ensures AddressField(OfferFields(o, address)[3]) == Some(address)
    ensures o.port <= PORT_MAX ==> Decimal(OfferFields(o, address)[4], PORT_MAX) == Some(o.port)
    ensures Sized(o) && o.size <= SIZE_MAX ==> Decimal(OfferFields(o, address)[5], SIZE_MAX) == Some(o.size)
  {
    DecimalOfShow(address, WORD_MAX);
    DecimalOfShow(o.port, PORT_MAX);
    DecimalOfShow(o.size, SIZE_MAX);
  }

  lemma OfferOfFields(o: Offer, address: nat)
    requires Valid(o) && address == ReadAddress(o.ip).value
    ensures DecodeFields(OfferFields(o, address)) == Some(Normal(o))
  {
    ReadAddressShows(o.ip);
    KindOfFields(o, address);
    NumbersOfFields(o, address);
  }

  lemma DecodeOfText(o: Offer, address: nat)
    requires address <= WORD_MAX && o.port <= WORD_MAX && o.size <= LONG_MAX
    requires o.kind == Send ==> FilenameValid(o.filename)
    ensures Decode([CTCP] + Text(o, address) + [CTCP]) == DecodeFields(OfferFields(o, address))
  {
    var payload := [CTCP] + Text(o, address) + [CTCP];
    TextIsShort(o, address);
    assert payload[1..|payload| - 1] == Text(o, address);
    FieldsOfText(o, address);
  }

  /** An offer is encoded exactly if it is valid, and decoding the result gives it back. */
  lemma EncodeRoundTrip(o: Offer)
    requires o.port <= WORD_MAX && o.size <= LONG_MAX
    ensures Encode(o).Some? <==> Valid(o)
    ensures Encode(o).Some? ==> Decode(Encode(o).value) == Some(Normal(o))
  {
    if (o.kind == Send ==> FilenameValid(o.filename)) && ReadAddress(o.ip).Some? {
      var address := ReadAddress(o.ip).value;
      ReadAddressShows(o.ip);
      TextIsShort(o, address);
      DecodeOfText(o, address);
      KindOfFields(o, address);
      NumbersOfFields(o, address);
      if Valid(o) {
        OfferOfFields(o, address);
      }
    }
  }

  lemma AddressInRange(t: seq<Byte>)
    requires AddressField(t).Some?
    ensures AddressField(t).value <= WORD_MAX
  {
    if Decimal(t, WORD_MAX).None? {
      ReadAddressShows(t);
    }
  }

  /** Whatever is decoded can be encoded again and is decoded to the same offer. */
  lemma DecodedIsValid(payload: seq<Byte>)
    requires Decode(payload).Some?
    ensures var o := Decode(payload).value;
            && Valid(o) && Normal(o) == o
            && Encode(o).Some? && Decode(Encode(o).value) == Some(o)
  {
    var f := Fields(payload[1..|payload| - 1]).value;
    FewFields(FirstField, payload[1..|payload| - 1], 6);
    var address := AddressField(f[3]).value;
    AddressInRange(f[3]);
    ShowAddressReads(address);
    EncodeRoundTrip(Decode(payload).value);
  }

  function Ascii(s: string): (b: seq<Byte>)
    requires forall i :: 0 <= i < |s| ==> 0 < s[i] as int < 128
    ensures |b| == |s| && forall i :: 0 <= i < |b| ==> b[i] == s[i] as int
  {
    seq(|s|, i requires 0 <= i < |s| => var b: Byte := s[i] as int; b)
  }

  /** What an offer begins with: its kind, and a file's name in quotes. */
  function Opening(o: Offer): seq<Byte> {
    if o.kind == Send then Ascii("DCC SEND \"") + o.filename + Ascii("\" ") else Ascii("DCC CHAT chat ")
  }

  /** The request as it goes over the wire, between its two marks. */
  lemma OfferIsSpelled(o: Offer)
    requires Encode(o).Some?
    ensures ReadAddress(o.ip).Some?
    ensures Encode(o).value
         == [1]
          + (Opening(o) + Show(ReadAddress(o.ip).value) + [' ' as int] + Show(o.port)
             + if o.kind == Send && o.sizeKnown then [' ' as int] + Show(o.size) else [])
          + [1]
  {
    var address := Show(ReadAddress(o.ip).value);
    if o.kind == Send {
      SendHead(o.filename, address);
    } else {
      ChatHead(address);
    }
  }

  lemma SendHead(name: seq<Byte>, address: seq<Byte>)
    ensures DCC + [SPACE] + (SEND + [SPACE, QUOTE] + name + [QUOTE]) + [SPACE] + address
         == Ascii("DCC SEND \"") + name + Ascii("\" ") + address
  {
    assert DCC + [SPACE] + (SEND + [SPACE, QUOTE]) == Ascii("DCC SEND \"") && [QUOTE] + [SPACE] == Ascii("\" ");
    Around(DCC + [SPACE], SEND + [SPACE, QUOTE], name, [QUOTE], [SPACE]);
  }

  lemma Around<T>(a: seq<T>, b: seq<T>, c: seq<T>, d: seq<T>, e: seq<T>)
    ensures a + (b + c + d) + e == (a + b) + c + (d + e)
  {
  }

  lemma ChatHead(address: seq<Byte>)
    ensures DCC + [SPACE] + (CHAT + [SPACE] + CHAT_NAME) + [SPACE] + address == Ascii("DCC CHAT chat ") + address
  {
    assert DCC + [SPACE] + (CHAT + [SPACE] + CHAT_NAME) + [SPACE] == Ascii("DCC CHAT chat ");
  }

  /** What a receiver may rely on in every offer that it takes: a file's name has 1 to 255 bytes, is no directory, and holds
      no path separator, quote or control byte; the port and the sizes are in range, and the address is a host's. */
  lemma DecodedIsSafe(payload: seq<Byte>, i: nat)
    requires Decode(payload).Some?
    ensures var o := Decode(payload).value;
            && 1 <= o.port <= 65535 && o.size <= 0x7fff_ffff_ffff_ffff
            && (o.kind == Send ==> 1 <= |o.filename| <= 255 && o.filename != ['.' as int] && o.filename != ['.' as int, '.' as int])
            && (o.kind == Send && i < |o.filename| ==>
                  o.filename[i] >= 32 && o.filename[i] !in {127, '/' as int, '\\' as int, '"' as int})
            && ReadAddress(o.ip).Some? && ReadAddress(o.ip).value !in {0, 0xffff_ffff}
  {
    DecodedIsValid(payload);
  }

  /** Every name that is safe in this sense can be offered. */
  lemma SafeNamesAreOffered(o: Offer)
    requires o.kind == Send && 1 <= o.port <= 65535 && o.size <= 0x7fff_ffff_ffff_ffff
    requires 1 <= |o.filename| <= 255 && o.filename != ['.' as int] && o.filename != ['.' as int, '.' as int]
    requires forall i :: 0 <= i < |o.filename| ==>
               o.filename[i] >= 32 && o.filename[i] !in {127, '/' as int, '\\' as int, '"' as int}
    requires ReadAddress(o.ip).Some? && ReadAddress(o.ip).value !in {0, 0xffff_ffff}
    ensures Encode(o).Some? && Decode(Encode(o).value) == Some(if o.sizeKnown then o else o.(size := 0))
  {
    EncodeRoundTrip(o);
  }

  // ---------------------------------------------------------------- the loops

  method CheckFilename(n: seq<Byte>) returns (ok: bool)
    ensures ok == FilenameValid(n)
  {
    if n == [] || |n| > NAME_MAX || n == [DOT] || n == [DOT, DOT] {
      return false;
    }
    var i := 0;
    while i < |n|
      invariant i <= |n| && forall j :: 0 <= j < i ==> NameByte(n[j])
    {
      if n[i] < 0x20 || n[i] == 127 || n[i] in [0x2f, 0x5c, QUOTE] {
        return false;
      }
      i := i + 1;
    }
    ok := true;
  }

  /** The position of a byte at or behind a start, or the end. */
  method Find(t: seq<Byte>, start: nat, b: Byte) returns (i: nat)
    requires start <= |t|
    ensures start <= i <= |t| && i - start == IndexOf(t[start..], b)
  {
    i := start;
    assert t[start..][0..] == t[start..];
    while i < |t| && t[i] != b
      invariant start <= i <= |t| && IndexOf(t[start..], b) == i - start + IndexOf(t[i..], b)
    {
      assert t[i..][1..] == t[i + 1..];
      i := i + 1;
    }
  }

  lemma QuotedField(t: seq<Byte>, start: nat, end: nat)
    requires start < end <= |t| && t[start] == QUOTE && end - start - 1 == IndexOf(t[start + 1..], QUOTE)
    ensures FirstField(t[start..]) == if end == |t| then Bad else Behind(Quoted(t[start + 1..end]), t[end + 1..])
  {
    assert t[start..][1..] == t[start + 1..];
    if end < |t| {
      assert t[start + 1..][..end - start - 1] == t[start + 1..end];
      assert t[start + 1..][end - start..] == t[end + 1..];
    }
  }

  lemma BareField(t: seq<Byte>, start: nat, end: nat)
    requires start <= end <= |t| && start < |t| && t[start] != QUOTE && t[start] != SPACE
    requires end - start == IndexOf(t[start..], SPACE)
    ensures FirstField(t[start..]) == Behind(Bare(t[start..end]), t[end..]) && start < end
  {
    assert t[start..][..end - start] == t[start..end] && t[start..][end - start..] == t[end..];
  }

  /** Cuts off the field at a position. */
  method NextField(t: seq<Byte>, start: nat) returns (ok: bool, field: seq<Byte>, next: nat)
    requires start < |t|
    ensures ok == FirstField(t[start..]).Field?
    ensures ok ==> start < next <= |t| && field == FirstField(t[start..]).item.text
                   && t[next..] == FirstField(t[start..]).rest
  {
    field, next := [], start;
    if t[start] == SPACE {
      return false, field, next;
    }
    if t[start] == QUOTE {
      var end := Find(t, start + 1, QUOTE);
      QuotedField(t, start, end);
      if end == |t| || (end + 1 < |t| && t[end + 1] != SPACE) {
        return false, field, next;
      }
      field, next := t[start + 1..end], end + 1;
    } else {
      next := Find(t, start, SPACE);
      BareField(t, start, next);
      field := t[start..next];
    }
    ok := true;
    if next < |t| {
      assert t[next..][1..] == t[next + 1..];
      next := next + 1;
      ok := next < |t|;
    }
  }

  /** Where the tokenizer stands: the fields found so far and those in the rest make up all of them. */
  ghost predicate ReadSoFar(all: Option<seq<seq<Byte>>>, done: seq<seq<Byte>>, left: Option<seq<seq<Byte>>>) {
    if left.None? then all.None? else all.Some? && all.value == done + left.value
  }

  lemma FieldsStep(t: seq<Byte>, room: nat)
    requires t != [] && room > 0
    ensures FirstField(t).Bad? ==> FieldsIn(t, room).None?
    ensures FirstField(t).Field? ==>
              ReadSoFar(FieldsIn(t, room), [FirstField(t).item.text], FieldsIn(FirstField(t).rest, room - 1))
  {
    if FirstField(t).Field? && Items(FirstField(t).rest, room - 1).Some? {
      var item, more := FirstField(t).item, Items(FirstField(t).rest, room - 1).value;
      assert ([item] + more)[1..] == more;
    }
  }

  lemma ReadOn(all: Option<seq<seq<Byte>>>, done: seq<seq<Byte>>, left: Option<seq<seq<Byte>>>, field: seq<Byte>,
               rest: Option<seq<seq<Byte>>>)
    requires ReadSoFar(all, done, left) && ReadSoFar(left, [field], rest)
    ensures ReadSoFar(all, done + [field], rest)
  {
    if rest.Some? {
      assert done + ([field] + rest.value) == done + [field] + rest.value;
    }
  }

  lemma NothingLeft(room: nat)
    ensures FieldsIn([], room) == Some([])
  {
  }

  lemma NoRoomLeft(t: seq<Byte>)
    requires t != []
    ensures FieldsIn(t, 0).None?
  {
  }

  /** Splits a request into at most six fields. */
  method Tokenize(t: seq<Byte>) returns (ok: bool, fields: seq<seq<Byte>>)
    ensures ok == Fields(t).Some? && (ok ==> Fields(t).value == fields)
  {
    var p := 0;
    fields := [];
    assert t[0..] == t;
    ghost var all, left := Fields(t), Fields(t);
    assert ReadSoFar(all, [], left);
    while p < |t| && |fields| < 6
      invariant p <= |t| && |fields| <= 6
      invariant left == FieldsIn(t[p..], 6 - |fields|) && ReadSoFar(all, fields, left)
      decreases |t| - p
    {
      FieldsStep(t[p..], 6 - |fields|);
      var good, field, next := NextField(t, p);
      if !good {
        return false, fields;
      }
      ghost var rest := FieldsIn(t[next..], 5 - |fields|);
      ReadOn(all, fields, left, field, rest);
      left, fields, p := rest, fields + [field], next;
    }
    ok := p == |t|;
    if ok {
      NothingLeft(6 - |fields|);
      assert fields + [] == fields;
    } else {
      NoRoomLeft(t[p..]);
    }
  }

  method CheckNumbers(f: seq<seq<Byte>>) returns (ok: bool, address: nat, port: nat, size: nat)
    requires 5 <= |f| <= 6
    ensures ok == NumberFields(f)
    ensures ok ==> && AddressField(f[3]) == Some(address) && Decimal(f[4], PORT_MAX) == Some(port)
                   && size == if |f| == 6 then Decimal(f[5], SIZE_MAX).value else 0
  {
    ok, address, port, size := false, 0, 0, 0;
    var a := ReadDecimal(f[3], WORD_MAX);
    if a.None? {
      a := ReadAddress(f[3]);
    }
    if a.None? || a.value == 0 || a.value == WORD_MAX {
      return;
    }
    var p := ReadDecimal(f[4], PORT_MAX);
    if p.None? || p.value == 0 {
      return;
    }
    if |f| == 6 {
      var z := ReadDecimal(f[5], SIZE_MAX);
      if z.None? {
        return;
      }
      size := z.value;
    }
    ok, address, port := true, a.value, p.value;
  }

  method ReadFields(f: seq<seq<Byte>>) returns (r: Option<Offer>)
    requires |f| <= 6
    ensures r == DecodeFields(f)
  {
    if |f| < 5 || !SameWord(f[0], DCC) {
      return None;
    }
    var chat, file := SameWord(f[1], CHAT), SameWord(f[1], SEND);
    if (!chat && !file) || (chat && (|f| != 5 || !SameWord(f[2], CHAT_NAME))) {
      return None;
    }
    if !chat {
      var named := CheckFilename(f[2]);
      if !named {
        return None;
      }
    }
    var ok, address, port, size := CheckNumbers(f);
    if !ok {
      return None;
    }
    r := Some(Offer(if chat then Chat else Send, !chat && |f| == 6, if chat then [] else f[2],
                    ShowAddress(address), port, size));
  }

  method DecodePayload(payload: seq<Byte>) returns (r: Option<Offer>)
    ensures r == Decode(payload)
  {
    if |payload| < 2 || |payload| >= MESSAGE_MAX || payload[0] != CTCP || payload[|payload| - 1] != CTCP {
      return None;
    }
    var ok, f := Tokenize(payload[1..|payload| - 1]);
    if !ok {
      return None;
    }
    FewFields(FirstField, payload[1..|payload| - 1], 6);
    r := ReadFields(f);
  }

  method EncodeOffer(o: Offer) returns (r: Option<seq<Byte>>)
    ensures r == Encode(o)
  {
    if o.kind == Send {
      var named := CheckFilename(o.filename);
      if !named {
        return None;
      }
    }
    var address := ReadAddress(o.ip);
    if address.None? {
      return None;
    }
    var payload := [CTCP] + Text(o, address.value) + [CTCP];
    if |payload| >= MESSAGE_MAX {
      return None;
    }
    var checked := DecodePayload(payload);
    r := if checked.None? then None else Some(payload);
  }
}
