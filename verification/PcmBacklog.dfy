/** The latest 100 ms of decoded sound: a bounded backlog that keeps a suffix of
    everything appended to it. */
module PcmBacklog {
  import opened MediaFraming
  import Rings

  const BACKLOG: nat := 3200  // bytes of mono 16-bit sound at 16 kHz

  function TakeLast<T>(s: seq<T>, n: nat): seq<T> {
    if |s| <= n then s else s[|s| - n..]
  }

  lemma TakeLastTwice<T>(a: seq<T>, b: seq<T>, n: nat)
    ensures TakeLast(TakeLast(a, n) + b, n) == TakeLast(a + b, n)
  {
  }

  /** Data of odd length is no whole number of samples and is refused. */
  predicate Whole(data: seq<Byte>) {
    data != [] && |data| % 2 == 0
  }

  class Backlog {
    const data: array<Byte>
    var len: nat

    ghost predicate Valid()
      reads this, data
    {
      data.Length == BACKLOG && len <= BACKLOG
    }

    ghost function Held(): seq<Byte>
      requires Valid()
      reads this, data
    {
      data[..len]
    }

    constructor ()
      ensures Valid() && Held() == [] && fresh(data)
    {
      data := new Byte[BACKLOG](_ => 0);
      len := 0;
    }

    method Append(bytes: seq<Byte>)
      requires Valid()
      modifies this, data
      ensures Valid()
      ensures Held() == if Whole(bytes) then TakeLast(old(Held()) + bytes, BACKLOG) else old(Held())
    {
      if bytes == [] || |bytes| % 2 != 0 {
        return;
      }
      if |bytes| >= BACKLOG {
        Rings.CopyInto(data, 0, bytes[|bytes| - BACKLOG..]);
        len := BACKLOG;
        assert Held() == TakeLast(bytes, BACKLOG);
        return;
      }
      if len + |bytes| > BACKLOG {
        Discard(len + |bytes| - BACKLOG);
      }
      ghost var kept := Held();
      Rings.CopyInto(data, len, bytes);
      len := len + |bytes|;
      assert Held() == kept + bytes;
    }

    method Discard(n: nat)
      requires Valid() && n <= len
      modifies this, data
      ensures Valid() && Held() == old(Held())[n..]
    {
      len := len - n;
      forall i | 0 <= i < len {
        data[i] := data[n + i];
      }
    }
  }

  function Appended(held: seq<Byte>, writes: seq<seq<Byte>>): seq<Byte>
    decreases |writes|
  {
    if writes == [] then held
    else Appended(if Whole(writes[0]) then TakeLast(held + writes[0], BACKLOG) else held, writes[1..])
  }

  function WholeBytes(writes: seq<seq<Byte>>): seq<Byte> {
    if writes == [] then [] else (if |writes[0]| % 2 == 0 then writes[0] else []) + WholeBytes(writes[1..])
  }

  /** Whatever is appended, the backlog is the last 100 ms of all of it, in whole samples. */
  lemma {:induction false} BacklogIsSuffix(before: seq<Byte>, writes: seq<seq<Byte>>)
    requires |before| % 2 == 0
    ensures Appended(TakeLast(before, 3200), writes) == TakeLast(before + WholeBytes(writes), 3200)
    ensures |Appended(TakeLast(before, 3200), writes)| % 2 == 0
    decreases |writes|
  {
    if writes == [] {
      assert before + [] == before;
    } else if Whole(writes[0]) {
      TakeLastTwice(before, writes[0], BACKLOG);
      BacklogIsSuffix(before + writes[0], writes[1..]);
      assert before + (writes[0] + WholeBytes(writes[1..])) == before + writes[0] + WholeBytes(writes[1..]);
    } else {
      BacklogIsSuffix(before, writes[1..]);
      assert writes[0] == [] || |writes[0]| % 2 == 1;
      assert [] + WholeBytes(writes[1..]) == WholeBytes(writes[1..]);
    }
  }
}
