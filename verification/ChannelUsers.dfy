/** The users of an IRC channel: a hash table of linked nodes that stands for a map from nick, whatever its case,
    to spelling and flags. */
module ChannelUsers {

  /** A byte of a C string. */
  type Byte = x: int | 1 <= x < 256 witness 1
  type Name = seq<Byte>

  const BUCKETS: nat := 127
  const NICKLEN: nat := 40
  const TOKENLEN: nat := 127
  const BANG: Byte := 0x21

  datatype Flags = Flags(op: bool, voice: bool, halfop: bool)

  datatype Entry = Entry(nick: Name, flags: Flags)

  // ---------------------------------------------------------------- names

  function Lower(b: Byte): Byte {
    if 0x41 <= b <= 0x5a then b + 32 else b
  }

  function Fold(n: Name): (f: Name)
    ensures |f| == |n|
  {
    seq(|n|, i requires 0 <= i < |n| => Lower(n[i]))
  }

  function HashStep(h: bv32, b: Byte): bv32 {
    ((h << 5) + h) ^ (b as bv32)
  }

  /** All bytes of a name stirred into one word. */
  function Stirred(step: (bv32, Byte) -> bv32, s: Name): bv32 {
    if s == [] then 5381 else step(Stirred(step, s[..|s| - 1]), s[|s| - 1])
  }

  /** The bucket of a nick depends on its folded form only. */
  function Bucket(folded: Name): (h: nat)
    ensures h < BUCKETS
  {
    Stirred(HashStep, folded) as nat % BUCKETS
  }

  method Stir(step: (bv32, Byte) -> bv32, nick: Name) returns (word: bv32)
    ensures word == Stirred(step, Fold(nick))
  {
    word := 5381;
    var i := 0;
    while i < |nick|
      invariant i <= |nick| && word == Stirred(step, Fold(nick)[..i])
    {
      assert Fold(nick)[..i + 1][..i] == Fold(nick)[..i];
      word := step(word, Lower(nick[i]));
      i := i + 1;
    }
    assert Fold(nick)[..|nick|] == Fold(nick);
  }

  method Hash(nick: Name) returns (h: nat)
    ensures h == Bucket(Fold(nick))
  {
    var word := Stir(HashStep, nick);
    h := word as nat % BUCKETS;
  }

  predicate IsSpace(b: Byte) {
    b == 0x20 || 9 <= b <= 13
  }

  predicate IsPrefix(b: Byte) {
    b == 0x40 || b == 0x2b || b == 0x25
  }

  /** A nick as servers list it: prefix characters are flags, then the name up to a space, cut at its limit. */
  function PrefixFlags(raw: Name): Flags {
    if raw == [] || !IsPrefix(raw[0]) then Flags(false, false, false)
    else
      var f := PrefixFlags(raw[1..]);
      Flags(f.op || raw[0] == 0x40, f.voice || raw[0] == 0x2b, f.halfop || raw[0] == 0x25)
  }

  function Bare(raw: Name): Name {
    if raw != [] && IsPrefix(raw[0]) then Bare(raw[1..]) else Word(raw, NICKLEN)
  }

  /** Where the word that goes on at a position ends: at a space, or when its limit is reached. */
  function End(s: Name, i: nat, limit: nat): (e: nat)
    requires i <= |s|
    ensures i <= e <= |s| && e - i <= limit
    ensures i < |s| && !IsSpace(s[i]) && limit > 0 ==> e > i
    decreases |s| - i
  {
    if i == |s| || IsSpace(s[i]) || limit == 0 then i else End(s, i + 1, limit - 1)
  }

  function Word(s: Name, limit: nat): (w: Name)
    ensures |w| <= limit && |w| <= |s|
  {
    s[..End(s, 0, limit)]
  }

  // ---------------------------------------------------------------- what the table stands for

  type Users = map<Name, Entry>

  function Added(m: Users, raw: Name): Users {
    var nick := Bare(raw);
    if nick == [] then m else Put(m, nick, PrefixFlags(raw))
  }

  /** A known user keeps its spelling; the flags are the new ones. */
  function Put(m: Users, nick: Name, flags: Flags): Users {
    var key := Fold(nick);
    m[key := Entry(if key in m then m[key].nick else nick, flags)]
  }

  function Removed(m: Users, nick: Name): Users {
    m - {Fold(nick)}
  }

  /** The name in front of user and host, cut at its limit. */
  function Source(prefix: Name): (n: Name)
    ensures |n| <= NICKLEN
  {
    var n := BangFrom(prefix, 0);
    if n <= NICKLEN then prefix[..n] else prefix[..NICKLEN]
  }

  /** Where the first exclamation mark at or after i is, or the end. */
  function BangFrom(s: Name, i: nat): (n: nat)
    requires i <= |s|
    ensures i <= n <= |s|
    decreases |s| - i
  {
    if i == |s| || s[i] == BANG then i else BangFrom(s, i + 1)
  }

  /** A rename carries the flags of the old nick over to the new one. */
  function Renamed(m: Users, prefix: Name, raw: Name): Users {
    var was := Source(prefix);
    if Fold(was) !in m then m
    else if Bare(raw) == [] then Removed(m, was)
    else Put(Removed(m, was), Bare(raw), m[Fold(was)].flags)
  }

  /** Every nick of a list, in order. */
  function Listed(m: Users, names: Name): Users
    decreases |names|
  {
    if names == [] then m
    else if IsSpace(names[0]) then Listed(m, names[1..])
    else
      var token := Word(names, |names|);
      assert token != [];
      Listed(Added(m, if |token| > TOKENLEN then token[..TOKENLEN] else token), names[|token|..])
  }

  // ---------------------------------------------------------------- what a server lists

  /** Names that differ in the case of ASCII letters only. */
  predicate SameNick(a: Name, b: Name) {
    |a| == |b| && forall i :: 0 <= i < |a| ==>
      a[i] == b[i] || ('A' as int <= a[i] <= 'Z' as int && b[i] == a[i] + 32) || ('A' as int <= b[i] <= 'Z' as int && a[i] == b[i] + 32)
  }

  lemma FoldMeans(a: Name, b: Name)
    ensures Fold(a) == Fold(b) <==> SameNick(a, b)
  {
    if Fold(a) == Fold(b) {
      forall i | 0 <= i < |a| ensures Lower(a[i]) == Lower(b[i]) {
        assert Fold(a)[i] == Fold(b)[i];
      }
    }
  }

  datatype Listing = Listing(flags: Flags, nick: Name)

  /** A nick behind the marks by which a server tells that a user is an operator or half-operator or has voice. */
  function Marked(f: Flags, n: Name): Name {
    var voiced := if f.voice then ['+' as int] + n else n;
    var half := if f.halfop then ['%' as int] + voiced else voiced;
    if f.op then ['@' as int] + half else half
  }

  predicate Blank(b: Byte) {
    b == ' ' as int || b == '\t' as int || b == '\n' as int || b == '\r' as int || b == 11 || b == 12
  }

  /** A nick that a server may have: no blanks, not led by a mark, and no longer than 40 bytes. */
  predicate Nick(n: Name) {
    0 < |n| <= 40 && n[0] !in {'@' as int, '%' as int, '+' as int} && forall i :: 0 <= i < |n| ==> !Blank(n[i])
  }

  /** A server's list of users, each with its marks in front and a space behind. */
  function Wire(users: seq<Listing>): Name {
    if users == [] then [] else Marked(users[0].flags, users[0].nick) + [' ' as int] + Wire(users[1..])
  }

  predicate AllNicks(users: seq<Listing>) {
    forall i :: 0 <= i < |users| ==> Nick(users[i].nick)
  }

  lemma {:induction false} EndAt(s: Name, i: nat, e: nat, limit: nat)
    requires i <= e <= |s| && e - i <= limit && (e == |s| || IsSpace(s[e]) || e - i == limit)
    requires forall k :: i <= k < e ==> !IsSpace(s[k])
    ensures End(s, i, limit) == e
    decreases e - i
  {
    if i < e {
      EndAt(s, i + 1, e, limit - 1);
    }
  }

  lemma NickIsBare(n: Name)
    requires Nick(n)
    ensures Bare(n) == n && PrefixFlags(n) == Flags(false, false, false)
  {
    EndAt(n, 0, |n|, 40);
    assert n[..|n|] == n;
  }

  /** A nick ends at any blank, and after 40 bytes in any case. */
  lemma NickEnds(n: Name, b: Byte, rest: Name)
    requires Nick(n) && (Blank(b) || |n| == 40)
    ensures Bare(n + [b] + rest) == n
  {
    var raw := n + [b] + rest;
    EndAt(raw, 0, |n|, 40);
    assert raw[..|n|] == n;
  }

  lemma MarkRead(mark: Byte, raw: Name)
    requires mark in {'@' as int, '%' as int, '+' as int}
    ensures Bare([mark] + raw) == Bare(raw)
    ensures var f := PrefixFlags(raw);
            PrefixFlags([mark] + raw) == Flags(f.op || mark == '@' as int, f.voice || mark == '+' as int, f.halfop || mark == '%' as int)
  {
    assert ([mark] + raw)[1..] == raw;
  }

  /** A marked nick is read as that nick with those flags. */
  lemma MarksRead(f: Flags, n: Name)
    requires Nick(n)
    ensures Bare(Marked(f, n)) == n && PrefixFlags(Marked(f, n)) == f
  {
    NickIsBare(n);
    var voiced := if f.voice then ['+' as int] + n else n;
    MarkRead('+' as int, n);
    var half := if f.halfop then ['%' as int] + voiced else voiced;
    MarkRead('%' as int, voiced);
    MarkRead('@' as int, half);
  }

  lemma FirstWord(m: Users, token: Name, rest: Name)
    requires token != [] && |token| <= TOKENLEN && forall i :: 0 <= i < |token| ==> !IsSpace(token[i])
    ensures Listed(m, token + [' ' as int] + rest) == Listed(Added(m, token), rest)
  {
    var names := token + [' ' as int] + rest;
    EndAt(names, 0, |token|, |names|);
    assert names[..|token|] == token;
    var behind := names[|token|..];
    assert behind == [' ' as int] + rest && behind[1..] == rest;
    assert Listed(m, names) == Listed(Added(m, token), behind);
  }

  lemma MarksPlain(f: Flags, n: Name)
    requires Nick(n)
    ensures var token := Marked(f, n); 0 < |token| <= TOKENLEN && forall i :: 0 <= i < |token| ==> !IsSpace(token[i])
  {
  }

  /** The first and the last word of a list about a nick, if there is one. */
  function Earliest(users: seq<Listing>, key: Name): seq<Listing> {
    if users == [] then [] else if Fold(users[0].nick) == key then [users[0]] else Earliest(users[1..], key)
  }

  function Latest(users: seq<Listing>, key: Name): seq<Listing> {
    if users == [] then []
    else if Latest(users[1..], key) != [] then Latest(users[1..], key)
    else if Fold(users[0].nick) == key then [users[0]]
    else []
  }

  /** What a server has listed is what the table holds afterwards: every nick with the flags of its last mention and, if it
      is new, spelled as in its first; everybody else as before. */
  lemma {:induction false} ListIsRead(m: Users, users: seq<Listing>, key: Name)
    requires AllNicks(users)
    ensures var r, last := Listed(m, Wire(users)), Latest(users, key);
            if last == [] then (key in r <==> key in m) && (key in m ==> r[key] == m[key])
            else Earliest(users, key) != [] && key in r
                 && r[key] == Entry(if key in m then m[key].nick else Earliest(users, key)[0].nick, last[0].flags)
    decreases |users|
  {
    if users != [] {
      var u, rest := users[0], users[1..];
      MarksPlain(u.flags, u.nick);
      FirstWord(m, Marked(u.flags, u.nick), Wire(rest));
      MarksRead(u.flags, u.nick);
      ListIsRead(Put(m, u.nick, u.flags), rest, key);
    }
  }

  /** The user that a prefix names is what stands in front of its first exclamation mark. */
  lemma SourceIsNick(nick: Name, host: Name)
    requires '!' as int !in nick && |nick| <= 40
    ensures Source(nick + ['!' as int] + host) == nick && Source(nick) == nick
  {
    BangAt(nick + ['!' as int] + host, 0, |nick|);
    BangAt(nick, 0, |nick|);
    assert (nick + ['!' as int] + host)[..|nick|] == nick && nick[..|nick|] == nick;
  }

  lemma {:induction false} BangAt(s: Name, i: nat, e: nat)
    requires i <= e <= |s| && (e == |s| || s[e] == '!' as int) && forall k :: i <= k < e ==> s[k] != '!' as int
    ensures BangFrom(s, i) == e
    decreases e - i
  {
    if i < e {
      BangAt(s, i + 1, e);
    }
  }

  // ---------------------------------------------------------------- properties of the map

  lemma PutSize(m: Users, nick: Name, flags: Flags)
    ensures |Put(m, nick, flags)| == if Fold(nick) in m then |m| else |m| + 1
  {
    var key := Fold(nick);
    if key in m {
      assert Put(m, nick, flags).Keys == m.Keys;
    } else {
      assert Put(m, nick, flags).Keys == m.Keys + {key};
    }
  }

  lemma RemovedSize(m: Users, nick: Name)
    ensures |Removed(m, nick)| == if Fold(nick) in m then |m| - 1 else |m|
  {
    MinusSize(m, Fold(nick));
  }

  lemma MinusSize<K, V>(m: map<K, V>, key: K)
    ensures |m - {key}| == if key in m then |m| - 1 else |m|
  {
    if key in m {
      assert m.Keys == (m - {key}).Keys + {key};
    } else {
      assert (m - {key}).Keys == m.Keys;
    }
  }

  /** A rename moves the flags and leaves everybody else alone; it loses a user exactly if the new nick is empty
      or belongs to somebody else. */
  lemma RenameCarriesFlags(m: Users, prefix: Name, raw: Name)
    requires Fold(Source(prefix)) in m
    ensures var was, next := Fold(Source(prefix)), Fold(Bare(raw));
            var r := Renamed(m, prefix, raw);
            && (Bare(raw) != [] ==> next in r && r[next].flags == m[was].flags)
            && (was in r ==> was == next && Bare(raw) != [])
            && (forall k :: k != was && (k != next || Bare(raw) == []) ==> (k in r <==> k in m) && (k in r ==> r[k] == m[k]))
            && |r| == |m| - (if Bare(raw) == [] || (next in m && next != was) then 1 else 0)
  {
    RemovedSize(m, Source(prefix));
    if Bare(raw) != [] {
      PutSize(Removed(m, Source(prefix)), Bare(raw), m[Fold(Source(prefix))].flags);
    } else {
      assert Fold([]) == [];
    }
  }

  // ---------------------------------------------------------------- one bucket

  class User {
    const nick: Name
    var flags: Flags
    var next: User?

    constructor (nick: Name, flags: Flags, next: User?)
      ensures this.nick == nick && this.flags == flags && this.next == next
    {
      this.nick, this.flags, this.next := nick, flags, next;
    }
  }

  ghost function Node(nodes: seq<User>, i: nat): User? {
    if i < |nodes| then nodes[i] else null
  }

  /** A chain of nodes, each pointing to the next. */
  ghost predicate Linked(head: User?, nodes: seq<User>)
    reads nodes
  {
    head == Node(nodes, 0) && forall i :: 0 <= i < |nodes| ==> nodes[i].next == Node(nodes, i + 1)
  }

  /** The place of a folded nick in a chain, or the chain's length. */
  ghost function Place(nodes: seq<User>, key: Name): (i: nat)
    ensures i <= |nodes| && (i < |nodes| ==> Fold(nodes[i].nick) == key)
    ensures forall j :: 0 <= j < i ==> Fold(nodes[j].nick) != key
  {
    if nodes == [] || Fold(nodes[0].nick) == key then 0 else 1 + Place(nodes[1..], key)
  }

  ghost predicate Distinct(nodes: seq<User>) {
    forall i, j :: 0 <= i < j < |nodes| ==> Fold(nodes[i].nick) != Fold(nodes[j].nick)
  }

  lemma PlaceIs(nodes: seq<User>, key: Name, i: nat)
    requires i <= |nodes| && forall j :: 0 <= j < i ==> Fold(nodes[j].nick) != key
    requires i < |nodes| ==> Fold(nodes[i].nick) == key
    ensures Place(nodes, key) == i
  {
    var p := Place(nodes, key);
    if p < i {
      assert false;
    }
  }

  ghost function Without(nodes: seq<User>, i: nat): seq<User> {
    if i < |nodes| then nodes[..i] + nodes[i + 1..] else nodes
  }

  /** Walks a chain for a nick. */
  method FindIn(head: User?, ghost nodes: seq<User>, nick: Name) returns (u: User?)
    requires Linked(head, nodes)
    ensures u == Node(nodes, Place(nodes, Fold(nick)))
  {
    u := head;
    ghost var i: nat := 0;
    while u != null && Fold(u.nick) != Fold(nick)
      invariant i <= |nodes| && u == Node(nodes, i)
      invariant forall j :: 0 <= j < i ==> Fold(nodes[j].nick) != Fold(nick)
      decreases |nodes| - i
    {
      u := u.next;
      i := i + 1;
    }
    PlaceIs(nodes, Fold(nick), i);
  }

  lemma Separate(nodes: seq<User>)
    requires Distinct(nodes)
    ensures forall i, j :: 0 <= i < j < |nodes| ==> nodes[i] != nodes[j]
  {
  }

  /** A chain in which the pointer to one node goes to the one behind it is the chain without that node. */
  lemma Spliced(first: User?, nodes: seq<User>, i: nat)
    requires i < |nodes| && first == if i == 0 then Node(nodes, 1) else nodes[0]
    requires forall j :: 0 <= j < |nodes| && j + 1 != i ==> nodes[j].next == Node(nodes, j + 1)
    requires i > 0 ==> nodes[i - 1].next == Node(nodes, i + 1)
    ensures Linked(first, Without(nodes, i))
  {
    var rest := Without(nodes, i);
    forall j | 0 <= j < |rest| ensures rest[j].next == Node(rest, j + 1) {
      if j < i {
        assert rest[j] == nodes[j];
      } else {
        assert rest[j] == nodes[j + 1];
      }
    }
  }

  /** Walks to the pointer that leads to a nick: the node before it, if any, and the node itself. */
  method PointerTo(head: User?, ghost nodes: seq<User>, nick: Name) returns (before: User?, u: User?)
    requires Linked(head, nodes)
    ensures var i := Place(nodes, Fold(nick)); u == Node(nodes, i) && before == if i == 0 then null else nodes[i - 1]
  {
    before, u := null, head;
    ghost var i: nat := 0;
    while u != null && Fold(u.nick) != Fold(nick)
      invariant i <= |nodes| && u == Node(nodes, i) && before == if i == 0 then null else nodes[i - 1]
      invariant forall j :: 0 <= j < i ==> Fold(nodes[j].nick) != Fold(nick)
      decreases |nodes| - i
    {
      before, u := u, u.next;
      i := i + 1;
    }
    PlaceIs(nodes, Fold(nick), i);
  }

  /** Takes a nick's node out of a chain by redirecting the pointer to it. */
  method Unlink(head: User?, ghost nodes: seq<User>, nick: Name) returns (first: User?, found: bool)
    requires Linked(head, nodes) && Distinct(nodes)
    modifies nodes
    ensures found == (Place(nodes, Fold(nick)) < |nodes|)
    ensures Linked(first, Without(nodes, Place(nodes, Fold(nick))))
    ensures forall i :: 0 <= i < |nodes| ==> nodes[i].flags == old(nodes[i].flags)
  {
    var before, u := PointerTo(head, nodes, nick);
    first, found := head, u != null;
    if found {
      Separate(nodes);
      if before == null {
        first := u.next;
      } else {
        before.next := u.next;
      }
      Spliced(first, nodes, Place(nodes, Fold(nick)));
    }
  }

  // ---------------------------------------------------------------- the table

  function Total<T>(chains: seq<seq<T>>): nat {
    if chains == [] then 0 else |chains[0]| + Total(chains[1..])
  }

  lemma {:induction false} TotalChange<T>(chains: seq<seq<T>>, h: nat, c: seq<T>)
    requires h < |chains|
    ensures Total(chains[h := c]) == Total(chains) - |chains[h]| + |c|
  {
    if h == 0 {
      assert chains[h := c][1..] == chains[1..];
    } else {
      TotalChange(chains[1..], h - 1, c);
      assert chains[h := c][1..] == chains[1..][h - 1 := c];
    }
  }

  /** Every node of a bucket is filed there by the hash of its folded nick, and is in the map. */
  ghost predicate ChainFits(bucket: Name -> nat, h: nat, nodes: seq<User>, m: Users) {
    && Distinct(nodes)
    && forall i {:trigger NodeFits(bucket, h, nodes[i], m)} :: 0 <= i < |nodes| ==> NodeFits(bucket, h, nodes[i], m)
  }

  ghost predicate NodeFits(bucket: Name -> nat, h: nat, u: User, m: Users) {
    Fold(u.nick) in m && m[Fold(u.nick)].nick == u.nick && bucket(Fold(u.nick)) == h
  }

  ghost predicate KeyFits(bucket: Name -> nat, chains: seq<seq<User>>, key: Name) {
    bucket(key) < |chains| && Place(chains[bucket(key)], key) < |chains[bucket(key)]|
  }

  ghost predicate NodesFit(bucket: Name -> nat, chains: seq<seq<User>>, m: Users) {
    forall h {:trigger ChainFits(bucket, h, chains[h], m)} :: 0 <= h < |chains| ==> ChainFits(bucket, h, chains[h], m)
  }

  ghost predicate KeysFit(bucket: Name -> nat, chains: seq<seq<User>>, m: Users) {
    forall key {:trigger KeyFits(bucket, chains, key)} :: key in m ==> KeyFits(bucket, chains, key)
  }

  /** The nodes in their buckets and the map have the same nicks, and as many of them. */
  ghost predicate Filed(bucket: Name -> nat, chains: seq<seq<User>>, m: Users) {
    NodesFit(bucket, chains, m) && KeysFit(bucket, chains, m) && Total(chains) == |m|
  }

  lemma NotInChain(bucket: Name -> nat, chains: seq<seq<User>>, m: Users, key: Name)
    requires Filed(bucket, chains, m) && bucket(key) < |chains|
    ensures key in m <==> Place(chains[bucket(key)], key) < |chains[bucket(key)]|
  {
    var nodes := chains[bucket(key)];
    assert ChainFits(bucket, bucket(key), nodes, m);
    assert Place(nodes, key) < |nodes| ==> NodeFits(bucket, bucket(key), nodes[Place(nodes, key)], m);
    assert key in m ==> KeyFits(bucket, chains, key);
  }

  /** Every entry is filed under its own folded spelling. */
  lemma EntriesKeyed(bucket: Name -> nat, chains: seq<seq<User>>, m: Users, key: Name)
    requires Filed(bucket, chains, m) && key in m
    ensures Fold(m[key].nick) == key
  {
    assert KeyFits(bucket, chains, key);
    var h := bucket(key);
    assert ChainFits(bucket, h, chains[h], m) && NodeFits(bucket, h, chains[h][Place(chains[h], key)], m);
  }

  lemma PlaceAfterPush(u: User, nodes: seq<User>, key: Name)
    ensures Place([u] + nodes, key) == if Fold(u.nick) == key then 0 else 1 + Place(nodes, key)
  {
    assert ([u] + nodes)[1..] == nodes;
  }

  /** A new node at the head of its bucket. */
  lemma PushFiled(bucket: Name -> nat, chains: seq<seq<User>>, m: Users, u: User, flags: Flags)
    requires Filed(bucket, chains, m) && bucket(Fold(u.nick)) < |chains| && Fold(u.nick) !in m
    ensures var h := bucket(Fold(u.nick));
            Filed(bucket, chains[h := [u] + chains[h]], m[Fold(u.nick) := Entry(u.nick, flags)])
  {
    var key := Fold(u.nick);
    var h := bucket(key);
    var next := m[key := Entry(u.nick, flags)];
    var more := chains[h := [u] + chains[h]];
    forall g | 0 <= g < |chains| ensures ChainFits(bucket, g, more[g], next) {
      assert ChainFits(bucket, g, chains[g], m);
      PushFits(bucket, g, chains[g], m, u, flags);
    }
    PushKeys(bucket, chains, m, u, flags);
    TotalChange(chains, h, [u] + chains[h]);
    assert next.Keys == m.Keys + {key};
  }

  lemma PushKeys(bucket: Name -> nat, chains: seq<seq<User>>, m: Users, u: User, flags: Flags)
    requires KeysFit(bucket, chains, m) && bucket(Fold(u.nick)) < |chains|
    ensures var h := bucket(Fold(u.nick));
            KeysFit(bucket, chains[h := [u] + chains[h]], m[Fold(u.nick) := Entry(u.nick, flags)])
  {
    var key := Fold(u.nick);
    var h := bucket(key);
    forall k | k in m || k == key ensures KeyFits(bucket, chains[h := [u] + chains[h]], k) {
      PlaceAfterPush(u, chains[h], k);
      assert k != key ==> KeyFits(bucket, chains, k);
    }
  }

  lemma PushFits(bucket: Name -> nat, g: nat, nodes: seq<User>, m: Users, u: User, flags: Flags)
    requires ChainFits(bucket, g, nodes, m) && Fold(u.nick) !in m
    ensures ChainFits(bucket, g, nodes, m[Fold(u.nick) := Entry(u.nick, flags)])
    ensures g == bucket(Fold(u.nick)) ==> ChainFits(bucket, g, [u] + nodes, m[Fold(u.nick) := Entry(u.nick, flags)])
  {
    forall i | 0 <= i < |nodes|
      ensures NodeFits(bucket, g, nodes[i], m[Fold(u.nick) := Entry(u.nick, flags)]) && Fold(nodes[i].nick) != Fold(u.nick)
    {
      assert NodeFits(bucket, g, nodes[i], m);
    }
  }

  lemma PlaceAfterUnlink(nodes: seq<User>, i: nat, key: Name)
    requires Distinct(nodes) && i < |nodes| && Fold(nodes[i].nick) != key && Place(nodes, key) < |nodes|
    ensures Place(Without(nodes, i), key) < |Without(nodes, i)|
  {
    var p, rest := Place(nodes, key), Without(nodes, i);
    var q := if p < i then p else p - 1;
    assert rest[q] == nodes[p];
    forall j | 0 <= j < q ensures Fold(rest[j].nick) != key {
      assert rest[j] == nodes[if j < i then j else j + 1];
    }
    PlaceIs(rest, key, q);
  }

  lemma WithoutAt(nodes: seq<User>, p: nat)
    ensures forall i :: 0 <= i < |Without(nodes, p)| ==> Without(nodes, p)[i] == nodes[if i < p then i else i + 1]
    ensures Distinct(nodes) ==> Distinct(Without(nodes, p))
  {
  }

  lemma UnlinkFits(bucket: Name -> nat, g: nat, nodes: seq<User>, m: Users, key: Name)
    requires ChainFits(bucket, g, nodes, m)
    ensures g == bucket(key) ==> ChainFits(bucket, g, Without(nodes, Place(nodes, key)), m - {key})
    ensures g != bucket(key) ==> ChainFits(bucket, g, nodes, m - {key})
  {
    var p := Place(nodes, key);
    forall i | 0 <= i < |nodes| && (g != bucket(key) || i != p) ensures NodeFits(bucket, g, nodes[i], m - {key}) {
      OtherFits(bucket, g, nodes, m, key, i);
    }
    WithoutAt(nodes, p);
  }

  lemma OtherFits(bucket: Name -> nat, g: nat, nodes: seq<User>, m: Users, key: Name, i: nat)
    requires ChainFits(bucket, g, nodes, m) && i < |nodes| && (g != bucket(key) || i != Place(nodes, key))
    ensures NodeFits(bucket, g, nodes[i], m - {key})
  {
    assert NodeFits(bucket, g, nodes[i], m);
    if i > Place(nodes, key) {
      assert Fold(nodes[Place(nodes, key)].nick) != Fold(nodes[i].nick);
    }
  }

  /** A node taken out of its bucket. */
  lemma UnlinkFiled(bucket: Name -> nat, chains: seq<seq<User>>, m: Users, key: Name)
    requires Filed(bucket, chains, m) && bucket(key) < |chains|
    ensures var h := bucket(key);
            Filed(bucket, chains[h := Without(chains[h], Place(chains[h], key))], m - {key})
  {
    var h := bucket(key);
    var less := chains[h := Without(chains[h], Place(chains[h], key))];
    NotInChain(bucket, chains, m, key);
    forall g | 0 <= g < |chains| ensures ChainFits(bucket, g, less[g], m - {key}) {
      assert ChainFits(bucket, g, chains[g], m);
      UnlinkFits(bucket, g, chains[g], m, key);
    }
    UnlinkKeys(bucket, chains, m, key);
    TotalChange(chains, h, Without(chains[h], Place(chains[h], key)));
    MinusSize(m, key);
  }

  lemma UnlinkKeys(bucket: Name -> nat, chains: seq<seq<User>>, m: Users, key: Name)
    requires KeysFit(bucket, chains, m) && NodesFit(bucket, chains, m) && bucket(key) < |chains|
    ensures var h := bucket(key);
            KeysFit(bucket, chains[h := Without(chains[h], Place(chains[h], key))], m - {key})
  {
    var h := bucket(key);
    var p := Place(chains[h], key);
    assert ChainFits(bucket, h, chains[h], m);
    forall k | k in m - {key} ensures KeyFits(bucket, chains[h := Without(chains[h], p)], k) {
      assert KeyFits(bucket, chains, k);
      if p < |chains[h]| && bucket(k) == h {
        PlaceAfterUnlink(chains[h], p, k);
      }
    }
  }

  /** New flags for a known nick. */
  lemma FlagFiled(bucket: Name -> nat, chains: seq<seq<User>>, m: Users, key: Name, flags: Flags)
    requires Filed(bucket, chains, m) && key in m
    ensures Filed(bucket, chains, m[key := Entry(m[key].nick, flags)])
  {
    var next := m[key := Entry(m[key].nick, flags)];
    assert next.Keys == m.Keys;
    forall h | 0 <= h < |chains| ensures ChainFits(bucket, h, chains[h], next) {
      assert ChainFits(bucket, h, chains[h], m);
      forall i | 0 <= i < |chains[h]| ensures NodeFits(bucket, h, chains[h][i], next) {
        assert NodeFits(bucket, h, chains[h][i], m);
      }
    }
    forall k | k in next ensures KeyFits(bucket, chains, k) {
      assert k in m;
    }
  }

  // ---------------------------------------------------------------- the channel

  ghost predicate OwnedAt(nodes: seq<User>, repr: set<User>) {
    forall i :: 0 <= i < |nodes| ==> nodes[i] in repr
  }

  ghost predicate Owned(chains: seq<seq<User>>, repr: set<User>) {
    forall h {:trigger OwnedAt(chains[h], repr)} :: 0 <= h < |chains| ==> OwnedAt(chains[h], repr)
  }

  /** A bucket's pointers and flags are as its ghost chain and the map say. */
  ghost predicate WiredAt(head: User?, nodes: seq<User>, m: Users)
    reads nodes
  {
    && Linked(head, nodes)
    && (forall i :: 0 <= i < |nodes| ==> Fold(nodes[i].nick) in m && nodes[i].flags == m[Fold(nodes[i].nick)].flags)
  }

  ghost predicate Wired(heads: seq<User?>, chains: seq<seq<User>>, m: Users, repr: set<User>)
    reads repr
    requires Owned(chains, repr)
  {
    && |heads| == |chains|
    && forall h {:trigger WiredAt(heads[h], chains[h], m)} ::
         0 <= h < |chains| ==> OwnedAt(chains[h], repr) && WiredAt(heads[h], chains[h], m)
  }

  lemma {:induction false} EmptyTotal<T>(chains: seq<seq<T>>)
    requires forall h :: 0 <= h < |chains| ==> chains[h] == []
    ensures Total(chains) == 0
  {
    if chains != [] {
      EmptyTotal(chains[1..]);
    }
  }

  class Channel {
    const table: array<User?>
    var users: int
    var namesInProgress: bool
    var complete: bool
    ghost var chains: seq<seq<User>>
    ghost var content: Users
    ghost var repr: set<User>

    ghost predicate Valid()
      reads this, table, repr
    {
      && table.Length == |chains| == BUCKETS && users == |content|
      && Filed(Bucket, chains, content) && Owned(chains, repr) && Wired(table[..], chains, content, repr)
    }

    constructor ()
      ensures Valid() && content == map[] && fresh(table)
    {
      table := new User?[BUCKETS](_ => null);
      users, namesInProgress, complete := 0, false, false;
      chains, content, repr := seq(BUCKETS, _ => []), map[], {};
      new;
      EmptyTotal(chains);
    }

    /** The node that stands for a folded nick, if there is one. */
    ghost function NodeOf(key: Name): User?
      reads this
      requires |chains| == BUCKETS
    {
      Node(chains[Bucket(key)], Place(chains[Bucket(key)], key))
    }

    method Find(nick: Name) returns (u: User?)
      requires Valid()
      ensures u == NodeOf(Fold(nick)) && (u != null) == (Fold(nick) in content)
      ensures u != null ==> u in repr && content[Fold(nick)] == Entry(u.nick, u.flags)
    {
      var h := Hash(nick);
      FindOk(Bucket, table[..], chains, content, repr, Fold(nick), h);
      u := FindIn(table[h], chains[h], nick);
    }

    method Remove(nick: Name)
      requires Valid()
      modifies this, table, repr
      ensures Valid() && content == Removed(old(content), nick) && repr == old(repr)
    {
      var h := Hash(nick);
      ghost var rest, less;
      var found;
      found, rest, less := RemoveFrom(Bucket, table, h, nick, chains, content, repr);
      users, chains, content := if found then users - 1 else users, rest, less;
    }

    /** A new node without flags. */
    method Push(nick: Name) returns (u: User)
      requires Valid() && Fold(nick) !in content && nick != []
      modifies this, table
      ensures Valid() && content == Put(old(content), nick, Flags(false, false, false))
      ensures u.nick == nick && u in chains[Bucket(Fold(nick))] && fresh(u) && repr == old(repr) + {u}
    {
      var h := Hash(nick);
      PutSize(content, nick, Flags(false, false, false));
      u := PushInto(Bucket, table, h, nick, chains, content, repr);
      users, chains, content, repr := users + 1, chains[h := [u] + chains[h]], Put(content, nick, Flags(false, false, false)), repr + {u};
    }

    /** New flags for the node of a known user. */
    method Mark(u: User, flags: Flags)
      requires Valid() && u in chains[Bucket(Fold(u.nick))] && Fold(u.nick) in content
      modifies this, u
      ensures Valid() && content == Put(old(content), u.nick, flags) && chains == old(chains) && repr == old(repr)
    {
      PutSize(content, u.nick, flags);
      NickOf(Bucket, chains, content, u, Bucket(Fold(u.nick)));
      SetFlags(Bucket, table[..], u, flags, chains, content, repr, Bucket(Fold(u.nick)));
      content := Put(content, u.nick, flags);
    }

    /** The user of a nick, known or new, with the given flags. */
    method Enter(nick: Name, flags: Flags) returns (u: User)
      requires Valid() && nick != []
      modifies this, table, repr
      ensures Valid() && content == Put(old(content), nick, flags) && fresh(repr - old(repr))
      ensures Fold(u.nick) == Fold(nick) && u in chains[Bucket(Fold(nick))] && u in repr
    {
      var known := Find(nick);
      if known == null {
        u := Push(nick);
      } else {
        u := known;
      }
      Mark(u, flags);
    }

    /** A nick with its prefix, as a server lists it; nothing is added for an empty one. */
    method Add(raw: Name) returns (u: User?)
      requires Valid()
      modifies this, table, repr
      ensures Valid() && content == Added(old(content), raw) && fresh(repr - old(repr))
      ensures (u == null) == (Bare(raw) == [])
      ensures u != null ==> Fold(u.nick) == Fold(Bare(raw)) && u in chains[Bucket(Fold(u.nick))] && u in repr
    {
      var flags, nick := ParseNick(raw);
      if nick == [] {
        return null;
      }
      u := Enter(nick, flags);
    }

    method Clear()
      requires Valid()
      modifies this, table
      ensures Valid() && content == map[] && repr == old(repr)
      ensures namesInProgress == old(namesInProgress) && complete == old(complete)
    {
      var i := 0;
      while i < BUCKETS
        invariant i <= BUCKETS && forall h :: 0 <= h < i ==> table[h] == null
        modifies table
      {
        table[i] := null;
        i := i + 1;
      }
      users := 0;
      chains, content := seq(BUCKETS, _ => []), map[];
      EmptyTotal(chains);
    }

    method BeginNames()
      requires Valid()
      modifies this, table
      ensures Valid() && content == map[] && repr == old(repr) && namesInProgress && !complete
    {
      namesInProgress, complete := true, false;
      Clear();
    }

    method EndNames()
      requires Valid()
      modifies this
      ensures Valid() && content == old(content) && !namesInProgress && complete
    {
      namesInProgress, complete := false, true;
    }

    /** One line of a name list; the first one replaces all users. */
    method Names(names: Name)
      requires Valid()
      modifies this, table, repr
      ensures Valid() && fresh(repr - old(repr))
      ensures content == Listed(if old(namesInProgress) then old(content) else map[], names)
    {
      if !namesInProgress {
        BeginNames();
      }
      var p := 0;
      ghost var all := Listed(content, names);
      assert names[0..] == names;
      while p < |names|
        invariant p <= |names| && Valid() && fresh(repr - old(repr)) && Listed(content, names[p..]) == all
        decreases |names| - p
      {
        p := NextName(names, p);
      }
    }

    /** Skips a space, or adds the nick that starts here. */
    method NextName(names: Name, p: nat) returns (q: nat)
      requires Valid() && p < |names|
      modifies this, table, repr
      ensures Valid() && fresh(repr - old(repr)) && p < q <= |names|
      ensures Listed(content, names[q..]) == Listed(old(content), names[p..])
    {
      if IsSpace(names[p]) {
        assert names[p..][1..] == names[p + 1..];
        q := p + 1;
      } else {
        q := AddName(names, p);
      }
    }

    method AddName(names: Name, p: nat) returns (q: nat)
      requires Valid() && p < |names| && !IsSpace(names[p])
      modifies this, table, repr
      ensures Valid() && fresh(repr - old(repr)) && p < q <= |names|
      ensures Listed(content, names[q..]) == Listed(old(content), names[p..])
    {
      var word;
      word, q := ReadToken(names, p, content);
      var _ := Add(word);
    }

    method Join(prefix: Name)
      requires Valid()
      modifies this, table, repr
      ensures Valid() && content == Added(old(content), Source(prefix)) && fresh(repr - old(repr))
    {
      var nick := ReadSource(prefix);
      var _ := Add(nick);
    }

    method Leave(prefix: Name)
      requires Valid()
      modifies this, table, repr
      ensures Valid() && content == Removed(old(content), Source(prefix)) && repr == old(repr)
    {
      var nick := ReadSource(prefix);
      Remove(nick);
    }

    /** A user of the channel takes a new nick and keeps its flags. */
    method Rename(prefix: Name, raw: Name)
      requires Valid()
      modifies this, table, repr
      ensures Valid() && content == Renamed(old(content), prefix, raw) && fresh(repr - old(repr))
    {
      var nick := ReadSource(prefix);
      var was := Find(nick);
      if was != null {
        var flags := was.flags;
        Remove(nick);
        AddWith(raw, flags);
      }
    }

    /** Adds a nick and then overrides its flags. */
    method AddWith(raw: Name, flags: Flags)
      requires Valid()
      modifies this, table, repr
      ensures Valid() && fresh(repr - old(repr))
      ensures content == if Bare(raw) == [] then old(content) else Put(old(content), Bare(raw), flags)
    {
      ghost var m := content;
      var u := Add(raw);
      if u != null {
        PutTwice(m, Bare(raw), PrefixFlags(raw), u.nick, flags);
        Mark(u, flags);
      }
    }
  }

  lemma PutTwice(m: Users, nick: Name, first: Flags, spelling: Name, flags: Flags)
    requires Fold(spelling) == Fold(nick)
    ensures Put(Put(m, nick, first), spelling, flags) == Put(m, nick, flags)
  {
  }

  lemma ListedStep(m: Users, names: Name, p: nat)
    requires p < |names| && !IsSpace(names[p])
    ensures var token := Word(names[p..], |names| - p);
            && 0 < |token| && p + |token| <= |names|
            && Listed(m, names[p..])
            == Listed(Added(m, if |token| > TOKENLEN then token[..TOKENLEN] else token), names[p + |token|..])
  {
    var token := Word(names[p..], |names| - p);
    assert names[p..][|token|..] == names[p + |token|..];
  }

  /** The word that starts at p, cut to the longest nick token, and where it ends. */
  method ReadToken(names: Name, p: nat, ghost m: Users) returns (word: Name, q: nat)
    requires p < |names| && !IsSpace(names[p])
    ensures p < q <= |names| && Listed(m, names[p..]) == Listed(Added(m, word), names[q..])
  {
    ListedStep(m, names, p);
    var token := ReadWord(names[p..], |names| - p);
    word, q := if |token| > TOKENLEN then token[..TOKENLEN] else token, p + |token|;
  }

  /** The bytes up to the first space, at most limit of them. */
  method ReadWord(s: Name, limit: nat) returns (word: Name)
    ensures word == Word(s, limit)
  {
    var i := 0;
    while i < |s| && !IsSpace(s[i]) && i < limit
      invariant i <= |s| && i <= limit && End(s, 0, limit) == End(s, i, limit - i)
    {
      i := i + 1;
    }
    word := s[..i];
  }

  /** Flags of all prefix characters, then the nick behind them. */
  method ParseNick(raw: Name) returns (flags: Flags, nick: Name)
    ensures flags == PrefixFlags(raw) && nick == Bare(raw)
  {
    var p := 0;
    var op, voice, halfop := false, false, false;
    assert raw[0..] == raw;
    while p < |raw| && IsPrefix(raw[p])
      invariant p <= |raw| && Bare(raw) == Bare(raw[p..])
      invariant PrefixFlags(raw) == Both(Flags(op, voice, halfop), PrefixFlags(raw[p..]))
    {
      if raw[p] == 0x40 {
        op := true;
      } else if raw[p] == 0x2b {
        voice := true;
      } else {
        halfop := true;
      }
      assert raw[p..][1..] == raw[p + 1..];
      p := p + 1;
    }
    flags := Flags(op, voice, halfop);
    nick := ReadWord(raw[p..], NICKLEN);
  }

  function Both(f: Flags, g: Flags): Flags {
    Flags(f.op || g.op, f.voice || g.voice, f.halfop || g.halfop)
  }

  method ReadSource(prefix: Name) returns (nick: Name)
    ensures nick == Source(prefix)
  {
    var n := 0;
    while n < |prefix| && prefix[n] != BANG
      invariant n <= |prefix| && BangFrom(prefix, 0) == BangFrom(prefix, n)
    {
      n := n + 1;
    }
    nick := if n > NICKLEN then prefix[..NICKLEN] else prefix[..n];
  }

  lemma NickOf(bucket: Name -> nat, chains: seq<seq<User>>, m: Users, u: User, h: nat)
    requires Filed(bucket, chains, m) && h < |chains| && u in chains[h]
    ensures NodeFits(bucket, h, u, m)
  {
    var i :| 0 <= i < |chains[h]| && chains[h][i] == u;
    assert ChainFits(bucket, h, chains[h], m) && NodeFits(bucket, h, chains[h][i], m);
  }

  lemma FindOk(bucket: Name -> nat, heads: seq<User?>, chains: seq<seq<User>>, m: Users, repr: set<User>, key: Name, h: nat)
    requires Filed(bucket, chains, m) && Owned(chains, repr) && Wired(heads, chains, m, repr)
    requires bucket(key) == h && h < |chains|
    ensures Linked(heads[h], chains[h])
    ensures var u := Node(chains[h], Place(chains[h], key));
            && ((u != null) == (key in m))
            && (u != null ==> u in repr && m[key] == Entry(u.nick, u.flags))
  {
    assert WiredAt(heads[h], chains[h], m) && ChainFits(bucket, h, chains[h], m) && OwnedAt(chains[h], repr);
    NotInChain(bucket, chains, m, key);
    var p := Place(chains[h], key);
    if p < |chains[h]| {
      assert NodeFits(bucket, h, chains[h][p], m);
    }
  }

  lemma OtherChain(bucket: Name -> nat, chains: seq<seq<User>>, m: Users, g: nat, h: nat)
    requires NodesFit(bucket, chains, m) && g < |chains| && h < |chains| && g != h
    ensures forall i :: 0 <= i < |chains[g]| ==> chains[g][i] !in chains[h]
  {
    assert ChainFits(bucket, g, chains[g], m) && ChainFits(bucket, h, chains[h], m);
    forall i, j | 0 <= i < |chains[g]| && 0 <= j < |chains[h]| ensures chains[g][i] != chains[h][j] {
      assert NodeFits(bucket, g, chains[g][i], m) && NodeFits(bucket, h, chains[h][j], m);
    }
  }

  /** What a map says of a chain is all that matters to it. */
  lemma SameWired(bucket: Name -> nat, h: nat, head: User?, nodes: seq<User>, m: Users, next: Users)
    requires WiredAt(head, nodes, m) && ChainFits(bucket, h, nodes, next)
    requires forall k :: k in m && k in next && bucket(k) == h ==> next[k].flags == m[k].flags
    ensures WiredAt(head, nodes, next)
  {
    forall i | 0 <= i < |nodes| ensures Fold(nodes[i].nick) in next && nodes[i].flags == next[Fold(nodes[i].nick)].flags {
      assert NodeFits(bucket, h, nodes[i], next);
    }
  }

  lemma ShorterWired(bucket: Name -> nat, h: nat, first: User?, nodes: seq<User>, m: Users, key: Name)
    requires ChainFits(bucket, h, nodes, m) && bucket(key) == h && Linked(first, Without(nodes, Place(nodes, key)))
    requires forall i :: 0 <= i < |nodes| ==> Fold(nodes[i].nick) in m && nodes[i].flags == m[Fold(nodes[i].nick)].flags
    ensures WiredAt(first, Without(nodes, Place(nodes, key)), m - {key})
  {
    var rest := Without(nodes, Place(nodes, key));
    WithoutAt(nodes, Place(nodes, key));
    UnlinkFits(bucket, h, nodes, m, key);
    forall i | 0 <= i < |rest| ensures Fold(rest[i].nick) in m - {key} {
      assert NodeFits(bucket, h, rest[i], m - {key});
    }
  }

  lemma OwnedChange(chains: seq<seq<User>>, repr: set<User>, h: nat, c: seq<User>)
    requires Owned(chains, repr) && h < |chains| && OwnedAt(c, repr)
    ensures Owned(chains[h := c], repr)
  {
    var changed := chains[h := c];
    forall g | 0 <= g < |chains| ensures OwnedAt(changed[g], repr) {
      assert OwnedAt(chains[g], repr);
    }
  }

  ghost predicate OthersWired(heads: seq<User?>, chains: seq<seq<User>>, m: Users, repr: set<User>, h: nat)
    reads repr
    requires Owned(chains, repr)
  {
    && |heads| == |chains|
    && forall g {:trigger WiredAt(heads[g], chains[g], m)} ::
         0 <= g < |chains| && g != h ==> OwnedAt(chains[g], repr) && WiredAt(heads[g], chains[g], m)
  }

  lemma RemovedWired(bucket: Name -> nat, heads: seq<User?>, chains: seq<seq<User>>, m: Users, repr: set<User>,
                     h: nat, first: User?, nick: Name)
    requires Filed(bucket, chains, m) && Owned(chains, repr) && OthersWired(heads, chains, m, repr, h)
    requires bucket(Fold(nick)) == h && h < |chains|
    requires Linked(first, Without(chains[h], Place(chains[h], Fold(nick))))
    requires forall i :: 0 <= i < |chains[h]| ==>
               Fold(chains[h][i].nick) in m && chains[h][i].flags == m[Fold(chains[h][i].nick)].flags
    ensures var rest := chains[h := Without(chains[h], Place(chains[h], Fold(nick)))];
            && Filed(bucket, rest, Removed(m, nick)) && Owned(rest, repr)
            && Wired(heads[h := first], rest, Removed(m, nick), repr)
  {
    var key := Fold(nick);
    var c := Without(chains[h], Place(chains[h], key));
    var rest := chains[h := c];
    assert ChainFits(bucket, h, chains[h], m) && OwnedAt(chains[h], repr);
    WithoutAt(chains[h], Place(chains[h], key));
    UnlinkFiled(bucket, chains, m, key);
    ShorterWired(bucket, h, first, chains[h], m, key);
    forall g | 0 <= g < |chains| && g != h ensures WiredAt(heads[g], chains[g], m - {key}) {
      assert WiredAt(heads[g], chains[g], m) && ChainFits(bucket, g, rest[g], m - {key});
      SameWired(bucket, g, heads[g], chains[g], m, m - {key});
    }
    WiredChange(heads, chains, m - {key}, repr, h, first, c);
  }

  method RemoveFrom(ghost bucket: Name -> nat, table: array<User?>, h: nat, nick: Name,
                    ghost chains: seq<seq<User>>, ghost m: Users, ghost repr: set<User>)
    returns (found: bool, ghost rest: seq<seq<User>>, ghost less: Users)
    requires h < table.Length == |chains| && bucket(Fold(nick)) == h
    requires Filed(bucket, chains, m) && Owned(chains, repr) && Wired(table[..], chains, m, repr)
    modifies table, repr
    ensures less == Removed(m, nick) && |rest| == table.Length && |less| == |m| - if found then 1 else 0
    ensures Filed(bucket, rest, less) && Owned(rest, repr) && Wired(table[..], rest, less, repr)
  {
    less := Removed(m, nick);
    ghost var heads := table[..];
    NotInChain(bucket, chains, m, Fold(nick));
    RemovedSize(m, nick);
    found := UnlinkAt(bucket, table, h, nick, chains, m, repr);
    RemovedWired(bucket, heads, chains, m, repr, h, table[h], nick);
    rest := chains[h := Without(chains[h], Place(chains[h], Fold(nick)))];
  }

  /** Takes a node out of one bucket; the other buckets do not share its nodes. */
  method UnlinkAt(ghost bucket: Name -> nat, table: array<User?>, h: nat, nick: Name,
                  ghost chains: seq<seq<User>>, ghost m: Users, ghost repr: set<User>)
    returns (found: bool)
    requires h < table.Length == |chains|
    requires NodesFit(bucket, chains, m) && Owned(chains, repr) && Wired(table[..], chains, m, repr)
    modifies table, repr
    ensures found == (Place(chains[h], Fold(nick)) < |chains[h]|)
    ensures table[..] == old(table[..])[h := table[h]] && OthersWired(old(table[..]), chains, m, repr, h)
    ensures Linked(table[h], Without(chains[h], Place(chains[h], Fold(nick))))
    ensures forall i :: 0 <= i < |chains[h]| ==>
              Fold(chains[h][i].nick) in m && chains[h][i].flags == m[Fold(chains[h][i].nick)].flags
  {
    ghost var heads, nodes := table[..], chains[h];
    assert WiredAt(heads[h], nodes, m) && ChainFits(bucket, h, nodes, m) && OwnedAt(nodes, repr);
    var first;
    first, found := Unlink(table[h], nodes, nick);
    table[h] := first;
    assert table[..] == heads[h := first];
    forall g | 0 <= g < |chains| && g != h ensures OwnedAt(chains[g], repr) && WiredAt(heads[g], chains[g], m) {
      OtherChain(bucket, chains, m, g, h);
      assert OwnedAt(chains[g], repr) && old(WiredAt(heads[g], chains[g], m));
    }
  }

  lemma WiredChange(heads: seq<User?>, chains: seq<seq<User>>, m: Users, repr: set<User>, h: nat, first: User?, c: seq<User>)
    requires h < |heads| == |chains| && Owned(chains, repr) && OwnedAt(c, repr) && WiredAt(first, c, m)
    requires forall g {:trigger WiredAt(heads[g], chains[g], m)} ::
               0 <= g < |chains| && g != h ==> WiredAt(heads[g], chains[g], m)
    ensures Owned(chains[h := c], repr) && Wired(heads[h := first], chains[h := c], m, repr)
  {
    OwnedChange(chains, repr, h, c);
    var starts, changed := heads[h := first], chains[h := c];
    forall g | 0 <= g < |chains| ensures OwnedAt(changed[g], repr) && WiredAt(starts[g], changed[g], m) {
      assert OwnedAt(chains[g], repr);
      assert g != h ==> WiredAt(heads[g], chains[g], m);
    }
  }

  /** A longer ownership set changes nothing. */
  lemma MoreOwned(chains: seq<seq<User>>, repr: set<User>, u: User)
    requires Owned(chains, repr)
    ensures Owned(chains, repr + {u})
  {
    forall h | 0 <= h < |chains| ensures OwnedAt(chains[h], repr + {u}) {
      assert OwnedAt(chains[h], repr);
    }
  }

  lemma PushedWired(bucket: Name -> nat, heads: seq<User?>, chains: seq<seq<User>>, m: Users, repr: set<User>,
                    h: nat, u: User)
    requires Filed(bucket, chains, m) && Owned(chains, repr) && Wired(heads, chains, m, repr)
    requires h < |chains| && bucket(Fold(u.nick)) == h && Fold(u.nick) !in m && u.next == heads[h]
    ensures var more, next := chains[h := [u] + chains[h]], m[Fold(u.nick) := Entry(u.nick, u.flags)];
            && Filed(bucket, more, next) && Owned(more, repr + {u})
            && Wired(heads[h := u], more, next, repr + {u})
  {
    var next := m[Fold(u.nick) := Entry(u.nick, u.flags)];
    var c := [u] + chains[h];
    PushFiled(bucket, chains, m, u, u.flags);
    MoreOwned(chains, repr, u);
    assert WiredAt(heads[h], chains[h], m) && ChainFits(bucket, h, chains[h], m) && OwnedAt(chains[h], repr);
    PushedAt(bucket, h, heads[h], chains[h], m, u);
    forall g | 0 <= g < |chains| && g != h ensures WiredAt(heads[g], chains[g], next) {
      assert WiredAt(heads[g], chains[g], m) && ChainFits(bucket, g, chains[g], m);
      PushFits(bucket, g, chains[g], m, u, u.flags);
      SameWired(bucket, g, heads[g], chains[g], m, next);
    }
    WiredChange(heads, chains, next, repr + {u}, h, u, c);
  }

  lemma PushedAt(bucket: Name -> nat, h: nat, head: User?, nodes: seq<User>, m: Users, u: User)
    requires WiredAt(head, nodes, m) && ChainFits(bucket, h, nodes, m)
    requires bucket(Fold(u.nick)) == h && Fold(u.nick) !in m && u.next == head
    ensures WiredAt(u, [u] + nodes, m[Fold(u.nick) := Entry(u.nick, u.flags)])
  {
    var c, next := [u] + nodes, m[Fold(u.nick) := Entry(u.nick, u.flags)];
    PushFits(bucket, h, nodes, m, u, u.flags);
    forall i | 0 <= i < |c| ensures c[i].next == Node(c, i + 1) && c[i].flags == next[Fold(c[i].nick)].flags {
      assert i > 0 ==> c[i] == nodes[i - 1];
    }
  }

  /** Puts a new node at the head of a bucket. */
  method PushInto(ghost bucket: Name -> nat, table: array<User?>, h: nat, nick: Name,
                  ghost chains: seq<seq<User>>, ghost m: Users, ghost repr: set<User>)
    returns (u: User)
    requires h < table.Length == |chains| && bucket(Fold(nick)) == h && Fold(nick) !in m
    requires Filed(bucket, chains, m) && Owned(chains, repr) && Wired(table[..], chains, m, repr)
    modifies table
    ensures fresh(u) && u.nick == nick && u.flags == Flags(false, false, false)
    ensures var more, next := chains[h := [u] + chains[h]], Put(m, nick, Flags(false, false, false));
            && Filed(bucket, more, next) && Owned(more, repr + {u})
            && Wired(table[..], more, next, repr + {u})
  {
    ghost var heads := table[..];
    u := new User(nick, Flags(false, false, false), table[h]);
    assert Wired(heads, chains, m, repr);
    table[h] := u;
    assert table[..] == heads[h := u];
    PushedWired(bucket, heads, chains, m, repr, h, u);
  }

  /** Sets the flags of a known user in place. */
  method SetFlags(ghost bucket: Name -> nat, ghost heads: seq<User?>, u: User, flags: Flags,
                  ghost chains: seq<seq<User>>, ghost m: Users, ghost repr: set<User>, ghost h: nat)
    requires Filed(bucket, chains, m) && Owned(chains, repr) && Wired(heads, chains, m, repr)
    requires h < |chains| && u in chains[h]
    modifies u
    ensures u.flags == flags
    ensures Filed(bucket, chains, Put(m, u.nick, flags)) && Wired(heads, chains, Put(m, u.nick, flags), repr)
  {
    ghost var key := Fold(u.nick);
    assert WiredAt(heads[h], chains[h], m) && ChainFits(bucket, h, chains[h], m) && OwnedAt(chains[h], repr);
    FlagFiled(bucket, chains, m, key, flags);
    u.flags := flags;
    forall g | 0 <= g < |chains| && g != h ensures OwnedAt(chains[g], repr) && WiredAt(heads[g], chains[g], m) {
      OtherChain(bucket, chains, m, g, h);
      assert OwnedAt(chains[g], repr) && old(WiredAt(heads[g], chains[g], m));
    }
    FlagWired(bucket, heads, chains, m, repr, h, u);
  }

  lemma FlagWired(bucket: Name -> nat, heads: seq<User?>, chains: seq<seq<User>>, m: Users, repr: set<User>, h: nat, u: User)
    requires Filed(bucket, chains, m) && Owned(chains, repr) && OthersWired(heads, chains, m, repr, h)
    requires h < |chains| && u in chains[h] && Linked(heads[h], chains[h])
    requires forall i :: 0 <= i < |chains[h]| && chains[h][i] != u ==>
               Fold(chains[h][i].nick) in m && chains[h][i].flags == m[Fold(chains[h][i].nick)].flags
    ensures Wired(heads, chains, Put(m, u.nick, u.flags), repr)
  {
    var next := Put(m, u.nick, u.flags);
    assert ChainFits(bucket, h, chains[h], m);
    var k :| 0 <= k < |chains[h]| && chains[h][k] == u;
    assert NodeFits(bucket, h, chains[h][k], m);
    FlagFiled(bucket, chains, m, Fold(u.nick), u.flags);
    forall g | 0 <= g < |chains| ensures OwnedAt(chains[g], repr) && WiredAt(heads[g], chains[g], next) {
      assert ChainFits(bucket, g, chains[g], next) && OwnedAt(chains[g], repr);
      if g != h {
        assert WiredAt(heads[g], chains[g], m);
        SameWired(bucket, g, heads[g], chains[g], m, next);
      } else {
        FlagsAt(bucket, h, chains[h], m, next, u);
      }
    }
  }

  lemma FlagsAt(bucket: Name -> nat, h: nat, nodes: seq<User>, m: Users, next: Users, u: User)
    requires ChainFits(bucket, h, nodes, m) && u in nodes && next == Put(m, u.nick, u.flags)
    requires forall i :: 0 <= i < |nodes| && nodes[i] != u ==>
               Fold(nodes[i].nick) in m && nodes[i].flags == m[Fold(nodes[i].nick)].flags
    ensures forall i :: 0 <= i < |nodes| ==> Fold(nodes[i].nick) in next && nodes[i].flags == next[Fold(nodes[i].nick)].flags
  {
    var k :| 0 <= k < |nodes| && nodes[k] == u;
    forall i | 0 <= i < |nodes| ensures Fold(nodes[i].nick) in next && nodes[i].flags == next[Fold(nodes[i].nick)].flags {
      assert i != k ==> Fold(nodes[if i < k then i else k].nick) != Fold(nodes[if i < k then k else i].nick);
    }
  }
}
