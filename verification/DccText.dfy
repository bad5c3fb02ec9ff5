/** The text level of DCC: decimal numbers, dotted addresses and the quoted fields of a request. */
module DccText {

  /** A byte of a C string. */
  type Byte = x: int | 1 <= x < 256 witness 1

  datatype Option<T> = None | Some(value: T)

  const SPACE: Byte := 0x20
  const QUOTE: Byte := 0x22
  const DOT: Byte := 0x2e
  const ZERO: Byte := 0x30

  // ---------------------------------------------------------------- decimal numbers

  predicate IsDigit(b: Byte) {
    0x30 <= b <= 0x39
  }

  predicate Digits(t: seq<Byte>) {
    forall i :: 0 <= i < |t| ==> IsDigit(t[i])
  }

  function Number(t: seq<Byte>): (n: nat)
    requires Digits(t)
  {
    if t == [] then 0
    else
      assert IsDigit(t[|t| - 1]);
      Number(t[..|t| - 1]) * 10 + (t[|t| - 1] as int - 0x30)
  }

  function Show(n: nat): (t: seq<Byte>)
    ensures t != []
  {
    if n < 10 then [0x30 + n] else Show(n / 10) + [0x30 + n % 10]
  }

  /** What a number field stands for: only digits, and no more than the maximum. */
  function Decimal(t: seq<Byte>, maximum: nat): Option<nat> {
    if t != [] && Digits(t) && Number(t) <= maximum then Some(Number(t)) else None
  }

  lemma {:induction false} NumberGrows(t: seq<Byte>, i: nat)
    requires Digits(t) && i <= |t|
    ensures Number(t[..i]) <= Number(t)
    decreases |t|
  {
    if i == |t| {
      assert t[..i] == t;
    } else {
      NumberGrows(t[..|t| - 1], i);
      assert t[..|t| - 1][..i] == t[..i];
    }
  }

  lemma NumberNext(t: seq<Byte>, i: nat)
    requires i < |t| && Digits(t[..i + 1])
    ensures Number(t[..i + 1]) == Number(t[..i]) * 10 + (t[i] as int - 0x30)
  {
    assert t[..i + 1][..i] == t[..i];
  }

  /** Reads a number digit by digit, never going over the maximum, so that the machine word cannot overflow. */
  method ReadDecimal(t: seq<Byte>, maximum: nat) returns (r: Option<nat>)
    ensures r == Decimal(t, maximum)
  {
    if t == [] {
      return None;
    }
    var number := 0;
    var i := 0;
    while i < |t|
      invariant i <= |t| && Digits(t[..i]) && number == Number(t[..i]) <= maximum
    {
      if !IsDigit(t[i]) {
        return None;
      }
      assert Digits(t[..i + 1]);
      NumberNext(t, i);
      if number > maximum / 10 || (number == maximum / 10 && t[i] as int - 0x30 > maximum % 10) {
        if Digits(t) {
          NumberGrows(t, i + 1);
        }
        return None;
      }
      number := number * 10 + t[i] as int - 0x30;
      i := i + 1;
    }
    assert t[..|t|] == t;
    return Some(number);
  }

  lemma {:induction false} ShowReads(n: nat)
    ensures Digits(Show(n)) && Number(Show(n)) == n
    ensures |Show(n)| > 1 ==> Show(n)[0] != ZERO
    ensures n > 0 ==> Show(n)[0] != ZERO
  {
    if n >= 10 {
      ShowReads(n / 10);
      assert Show(n)[..|Show(n)| - 1] == Show(n / 10);
    } else {
      assert Show(n)[..0] == [];
    }
  }

  /** The only way to write a number without a leading zero. */
  lemma {:induction false} NumberShows(t: seq<Byte>)
    requires t != [] && Digits(t) && (|t| > 1 ==> t[0] != ZERO)
    ensures Show(Number(t)) == t
    ensures |t| > 1 ==> Number(t) >= 10
    ensures t[0] != ZERO ==> Number(t) >= 1
  {
    var front, last := t[..|t| - 1], t[|t| - 1];
    assert IsDigit(last);
    assert t == front + [last];
    if front == [] {
      assert Number(t) == last as int - 0x30;
    } else {
      assert front[0] == t[0];
      NumberShows(front);
      assert Number(t) / 10 == Number(front) && Number(t) % 10 == last as int - 0x30;
    }
  }

  function Pow10(k: nat): (p: nat)
    ensures p > 0
  {
    if k == 0 then 1 else 10 * Pow10(k - 1)
  }

  lemma {:induction false} ShowIsShort(n: nat, k: nat)
    requires k > 0 && n < Pow10(k)
    ensures |Show(n)| <= k
  {
    if n >= 10 {
      assert k > 1 by {
        assert Pow10(1) == 10;
      }
      ShowIsShort(n / 10, k - 1);
    }
  }

  // ---------------------------------------------------------------- dotted addresses

  function IndexOf(t: seq<Byte>, b: Byte): (i: nat)
    ensures i <= |t| && b !in t[..i] && (i < |t| ==> t[i] == b)
  {
    if t == [] || t[0] == b then 0 else
      var i := IndexOf(t[1..], b);
      assert t[..i + 1] == [t[0]] + t[1..][..i];
      i + 1
  }

  function Split(t: seq<Byte>): (r: seq<seq<Byte>>)
    ensures r != []
    decreases |t|
  {
    var i := IndexOf(t, DOT);
    if i == |t| then [t] else [t[..i]] + Split(t[i + 1..])
  }

  function Join(parts: seq<seq<Byte>>, mark: Byte): seq<Byte> {
    if parts == [] then []
    else if |parts| == 1 then parts[0]
    else parts[0] + [mark] + Join(parts[1..], mark)
  }

  lemma {:induction false} JoinSplit(t: seq<Byte>)
    ensures Join(Split(t), DOT) == t
    decreases |t|
  {
    var i := IndexOf(t, DOT);
    if i < |t| {
      JoinSplit(t[i + 1..]);
      assert Split(t)[1..] == Split(t[i + 1..]);
      assert t == t[..i] + [t[i]] + t[i + 1..];
    }
  }

  lemma {:induction false} IndexBehind(front: seq<Byte>, b: Byte, behind: seq<Byte>)
    requires b !in front
    ensures IndexOf(front + [b] + behind, b) == |front|
    ensures (front + [b] + behind)[..|front|] == front && (front + [b] + behind)[|front| + 1..] == behind
  {
    if front != [] {
      IndexBehind(front[1..], b, behind);
      assert (front + [b] + behind)[1..] == front[1..] + [b] + behind;
    }
  }

  lemma IndexNowhere(t: seq<Byte>, b: Byte)
    requires b !in t
    ensures IndexOf(t, b) == |t|
  {
  }

  lemma {:induction false} SplitJoin(parts: seq<seq<Byte>>)
    requires parts != [] && forall i :: 0 <= i < |parts| ==> DOT !in parts[i]
    ensures Split(Join(parts, DOT)) == parts
    decreases |parts|
  {
    if |parts| == 1 {
      IndexNowhere(parts[0], DOT);
    } else {
      IndexBehind(parts[0], DOT, Join(parts[1..], DOT));
      SplitJoin(parts[1..]);
    }
  }

  predicate Octet(t: seq<Byte>) {
    t != [] && Digits(t) && (|t| > 1 ==> t[0] != ZERO) && Number(t) <= 255
  }

  /** A dotted IPv4 address in host order, read as the C library's inet_pton reads it. */
  function ReadAddress(t: seq<Byte>): Option<nat> {
    var p := Split(t);
    if |p| == 4 && Octet(p[0]) && Octet(p[1]) && Octet(p[2]) && Octet(p[3])
    then Some(Address(Number(p[0]), Number(p[1]), Number(p[2]), Number(p[3])))
    else None
  }

  function Address(a: nat, b: nat, c: nat, d: nat): nat {
    ((a * 256 + b) * 256 + c) * 256 + d
  }

  /** Four numbers of an address in network order, the first one highest. */
  lemma AddressIsDotted(a: nat, b: nat, c: nat, d: nat, n: nat)
    requires a < 256 && b < 256 && c < 256 && d < 256 && n == a * 0x100_0000 + b * 0x1_0000 + c * 0x100 + d
    ensures ShowAddress(n) == Show(a) + ['.' as int] + Show(b) + ['.' as int] + Show(c) + ['.' as int] + Show(d)
  {
    SameAddress(a, b, c, d);
    AddressParts(a, b, c, d);
    ShownParts(n, a, b, c, d);
    JoinFour(Show(a), Show(b), Show(c), Show(d));
  }

  lemma ShownParts(n: nat, a: nat, b: nat, c: nat, d: nat)
    requires n / 256 / 256 / 256 == a && n / 256 / 256 % 256 == b && n / 256 % 256 == c && n % 256 == d
    ensures ShowAddress(n) == Join([Show(a), Show(b), Show(c), Show(d)], DOT)
  {
  }

  lemma SameAddress(a: nat, b: nat, c: nat, d: nat)
    ensures Address(a, b, c, d) == a * 0x100_0000 + b * 0x1_0000 + c * 0x100 + d
  {
  }

  lemma JoinMore(a: seq<Byte>, parts: seq<seq<Byte>>)
    requires parts != []
    ensures Join([a] + parts, DOT) == a + [DOT] + Join(parts, DOT)
  {
    assert ([a] + parts)[1..] == parts;
  }

  lemma Joins<T>(a: seq<T>, b: seq<T>, c: seq<T>)
    ensures a + b + c == a + (b + c)
  {
  }

  lemma JoinFour(a: seq<Byte>, b: seq<Byte>, c: seq<Byte>, d: seq<Byte>)
    ensures Join([a, b, c, d], DOT) == a + [DOT] + b + [DOT] + c + [DOT] + d
  {
    assert [a, b, c, d] == [a] + ([b] + ([c] + [d]));
    JoinMore(a, [b] + ([c] + [d]));
    JoinMore(b, [c] + [d]);
    JoinMore(c, [d]);
    Joins(a + [DOT], b + [DOT], c + [DOT] + d);
    Joins(a + [DOT] + (b + [DOT]), c + [DOT], d);
    assert a + [DOT] + (b + [DOT]) == a + [DOT] + b + [DOT];
    assert a + [DOT] + b + [DOT] + (c + [DOT]) == a + [DOT] + b + [DOT] + c + [DOT];
  }

  function ShowAddress(n: nat): seq<Byte> {
    Join([Show(n / 256 / 256 / 256), Show(n / 256 / 256 % 256), Show(n / 256 % 256), Show(n % 256)], DOT)
  }

  lemma Shifted(high: nat, low: nat)
    requires low < 256
    ensures (high * 256 + low) / 256 == high && (high * 256 + low) % 256 == low
  {
  }

  lemma AddressParts(a: nat, b: nat, c: nat, d: nat)
    requires a < 256 && b < 256 && c < 256 && d < 256
    ensures var n := Address(a, b, c, d);
            && n < 0x1_0000_0000 && n / 256 / 256 / 256 == a && n / 256 / 256 % 256 == b
            && n / 256 % 256 == c && n % 256 == d
  {
    Shifted((a * 256 + b) * 256 + c, d);
    Shifted(a * 256 + b, c);
    Shifted(a, b);
  }

  lemma PartsAddress(n: nat)
    requires n < 0x1_0000_0000
    ensures n / 256 / 256 / 256 < 256
    ensures Address(n / 256 / 256 / 256, n / 256 / 256 % 256, n / 256 % 256, n % 256) == n
  {
    var h := n / 256;
    assert n == h * 256 + n % 256 && h < 0x100_0000;
    var g := h / 256;
    assert h == g * 256 + h % 256 && g < 0x1_0000;
    assert g == g / 256 * 256 + g % 256;
  }

  /** A valid address has one spelling only. */
  lemma ReadAddressShows(t: seq<Byte>)
    requires ReadAddress(t).Some?
    ensures ReadAddress(t).value < 0x1_0000_0000 && ShowAddress(ReadAddress(t).value) == t
  {
    var p := Split(t);
    JoinSplit(t);
    NumberShows(p[0]);
    NumberShows(p[1]);
    NumberShows(p[2]);
    NumberShows(p[3]);
    AddressParts(Number(p[0]), Number(p[1]), Number(p[2]), Number(p[3]));
    assert p == [p[0], p[1], p[2], p[3]];
  }

  lemma ShowIsOctet(n: nat)
    requires n < 256
    ensures Octet(Show(n)) && Number(Show(n)) == n && DOT !in Show(n)
  {
    ShowReads(n);
    assert !IsDigit(DOT);
  }

  lemma ShowAddressReads(n: nat)
    requires n < 0x1_0000_0000
    ensures ReadAddress(ShowAddress(n)) == Some(n)
  {
    PartsAddress(n);
    var a, b, c, d := n / 256 / 256 / 256, n / 256 / 256 % 256, n / 256 % 256, n % 256;
    ShowIsOctet(a);
    ShowIsOctet(b);
    ShowIsOctet(c);
    ShowIsOctet(d);
    SplitJoin([Show(a), Show(b), Show(c), Show(d)]);
  }
}
