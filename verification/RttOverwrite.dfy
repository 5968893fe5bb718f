/** SEGGER_RTT_WriteWithOverwriteNoLock: what it does, and exactly when it does what it is for. */
module RttOverwrite {
  import opened RttSpec
  import opened RttRing

  // ------------------------------------------------------------- what it does

  /** Buffer and write offset after the copy loop. Every round but the first is one byte short of the
      buffer. */
  function Copied(buf: seq<Byte>, wr: nat, data: seq<Byte>, avail: nat): (r: (seq<Byte>, nat))
    requires 0 < avail && wr + avail <= |buf| && |buf| >= 2
    ensures |r.0| == |buf| && r.1 < |buf|
    decreases |data|
  {
    if avail > |data| then (Blit(buf, wr, data), wr + |data|)
    else
      var b, rest := Blit(buf, wr, data[..avail]), data[avail..];
      if rest == [] then (b, 0) else Copied(b, 0, rest, |buf| - 1)
  }

  function Wrapped(p: nat, size: nat): (r: nat)
    requires size > 0
    ensures r < size
    ensures p < size ==> r == p
    ensures size <= p < 2 * size ==> r == p - size
  {
    if p < size then p else Wrapped(p - size, size)
  }

  /** The read offset moves on by as many bytes as do not fit. */
  function Pushed(size: nat, rd: nat, wr: nat, n: nat): (r: nat)
    requires rd < size && wr < size
    ensures r < size
  {
    var free := Free(size, rd, wr);
    if n > free then Wrapped(rd + (n - free), size) else rd
  }

  /** The unread bytes afterwards. */
  function Result(buf: seq<Byte>, rd: nat, wr: nat, data: seq<Byte>): seq<Byte>
    requires Offsets(buf, rd, wr) && |buf| >= 2
  {
    var (b, w) := Copied(buf, wr, data, |buf| - wr);
    Unread(b, Pushed(|buf|, rd, wr, |data|), w)
  }

  method WriteWithOverwrite(ring: Ring, data: seq<Byte>)
    requires ring.Valid() && ring.buf.Length >= 2
    modifies ring`wrOff, ring`rdOff, ring.buf
    ensures ring.Valid()
    ensures ring.Contents() == Result(old(ring.buf[..]), old(ring.rdOff), old(ring.wrOff), data)
  {
    hide Pushed, Copied, Unread;
    PushRead(ring, |data|);
    CopyAll(ring, data);
  }

  /** Make room for `n` bytes. */
  method PushRead(ring: Ring, n: nat)
    requires ring.Valid()
    modifies ring`rdOff
    ensures ring.Valid() && ring.rdOff == Pushed(ring.buf.Length, old(ring.rdOff), ring.wrOff, n)
  {
    var size := ring.buf.Length;
    var free;
    if ring.wrOff == ring.rdOff {
      free := size - 1;
    } else if ring.wrOff < ring.rdOff {
      free := ring.rdOff - ring.wrOff - 1;
    } else {
      free := ring.rdOff + size - ring.wrOff - 1;
    }
    if n > free {
      ring.rdOff := ring.rdOff + (n - free);
      while ring.rdOff >= size
        invariant Wrapped(ring.rdOff, size) == Wrapped(old(ring.rdOff) + (n - free), size)
      {
        ring.rdOff := ring.rdOff - size;
      }
    }
  }

  method CopyAll(ring: Ring, data: seq<Byte>)
    requires ring.Valid() && ring.buf.Length >= 2
    modifies ring`wrOff, ring.buf
    ensures ring.Valid()
    ensures (ring.buf[..], ring.wrOff) ==
      Copied(old(ring.buf[..]), old(ring.wrOff), data, ring.buf.Length - old(ring.wrOff))
  {
    hide Blit;
    var avail := ring.buf.Length - ring.wrOff;
    ghost var goal := Copied(ring.buf[..], ring.wrOff, data, avail);
    var from := 0;
    while true
      invariant from <= |data| && (from > 0 ==> from < |data|)
      invariant ring.Valid() && 0 < avail && ring.wrOff + avail <= ring.buf.Length
      invariant goal == Copied(ring.buf[..], ring.wrOff, data[from..], avail)
      decreases |data| - from
    {
      if avail > |data| - from {
        assert data[from..] == data[from..from + (|data| - from)];
        CopyIn(ring, data, from, |data| - from);
        ring.wrOff := ring.wrOff + (|data| - from);
        break;
      } else {
        assert data[from..][..avail] == data[from..from + avail] && data[from..][avail..] == data[from + avail..];
        CopyIn(ring, data, from, avail);
        ring.wrOff := 0;
        from := from + avail;
        avail := ring.buf.Length - 1;
      }
      if from == |data| {
        break;
      }
    }
  }

  method CopyIn(ring: Ring, data: seq<Byte>, from: nat, n: nat)
    requires ring.Valid() && from + n <= |data| && ring.wrOff + n <= ring.buf.Length
    modifies ring.buf
    ensures ring.buf[..] == Blit(old(ring.buf[..]), ring.wrOff, data[from..from + n])
  {
    RttRing.CopyIn(ring.buf, ring.wrOff, data, from, n);
  }

  // ------------------------------------------------------------ what it is for

  /** The last `n` bytes, or all if there are no more. */
  function Last(s: seq<Byte>, n: nat): seq<Byte> {
    if |s| <= n then s else s[|s| - n..]
  }

  /** The old unread bytes and the new ones, less the oldest of them that do not fit. */
  function Wanted(buf: seq<Byte>, rd: nat, wr: nat, data: seq<Byte>): seq<Byte>
    requires Offsets(buf, rd, wr)
  {
    Last(Unread(buf, rd, wr) + data, |buf| - 1)
  }

  /** The write stays within its first two rounds, the second not a full one. Every length
      below the buffer's size is of this kind, wherever the offset is. */
  predicate Short(size: nat, wr: nat, n: nat) {
    wr + n < 2 * size - 1
  }

  /** In two copies at most, the buffer is ... */
  function Twice(buf: seq<Byte>, wr: nat, data: seq<Byte>): (r: seq<Byte>)
    requires wr < |buf| && wr + |data| < 2 * |buf|
    ensures |r| == |buf|
  {
    var avail := |buf| - wr;
    if |data| < avail then Blit(buf, wr, data) else Blit(Blit(buf, wr, data[..avail]), 0, data[avail..])
  }

  lemma CopiedShort(buf: seq<Byte>, wr: nat, data: seq<Byte>)
    requires wr < |buf| && |buf| >= 2 && Short(|buf|, wr, |data|)
    ensures Copied(buf, wr, data, |buf| - wr) == (Twice(buf, wr, data), Slot(|buf|, wr + |data|))
  {
    hide Blit;
    var avail := |buf| - wr;
    if avail <= |data| {
      var b, rest := Blit(buf, wr, data[..avail]), data[avail..];
      if rest != [] {
        assert Copied(b, 0, rest, |buf| - 1) == (Blit(b, 0, rest), |rest|);
      } else {
        assert Blit(b, 0, rest) == b by { BlitNothing(b); }
      }
    }
  }

  lemma BlitNothing(b: seq<Byte>)
    ensures Blit(b, 0, []) == b
  {
  }

  /** ... the new byte in every slot that got one, and as before elsewhere. */
  lemma TwiceAt(buf: seq<Byte>, wr: nat, data: seq<Byte>, p: nat)
    requires wr < |buf| && wr + |data| < 2 * |buf| && p < |buf|
    ensures Twice(buf, wr, data)[p] ==
      if p + |buf| < wr + |data| then data[p + |buf| - wr]
      else if wr <= p < wr + |data| then data[p - wr] else buf[p]
  {
    hide Blit;
    var avail := |buf| - wr;
    if |data| < avail {
      BlitAt(buf, wr, data, p);
    } else {
      BlitAt(buf, wr, data[..avail], p);
      BlitAt(Blit(buf, wr, data[..avail]), 0, data[avail..], p);
    }
  }

  lemma ResultAt(buf: seq<Byte>, rd: nat, wr: nat, data: seq<Byte>, j: nat)
    requires Offsets(buf, rd, wr) && |buf| >= 2 && Short(|buf|, wr, |data|)
    requires |data| > Free(|buf|, rd, wr) && j < |buf| - 1
    ensures var u := Unread(buf, rd, wr);
      var at := |u| + |data| - (|buf| - 1) + j;
      |Result(buf, rd, wr, data)| == |buf| - 1 && Result(buf, rd, wr, data)[j] == (u + data)[at]
  {
    hide Copied, Twice, Unread;
    CopiedShort(buf, wr, data);
    var size, n, u := |buf|, |data|, Unread(buf, rd, wr);
    var r := Pushed(size, rd, wr, n);
    assert r == Slot(size, wr + n + 1);
    var p := Slot(size, r + j);
    TwiceAt(buf, wr, data, p);
    assert Result(buf, rd, wr, data)[j] == Twice(buf, wr, data)[p];
    var at := |u| + n - (size - 1) + j;
    if at < |u| { assert u[at] == buf[Slot(size, rd + at)]; }
  }

  lemma {:induction false} ShortIsRight(buf: seq<Byte>, rd: nat, wr: nat, data: seq<Byte>)
    requires Offsets(buf, rd, wr) && |buf| >= 2 && Short(|buf|, wr, |data|)
    ensures Result(buf, rd, wr, data) == Wanted(buf, rd, wr, data)
  {
    hide Copied, Unread;
    if |data| <= Free(|buf|, rd, wr) {
      FitsIsRight(buf, rd, wr, data);
    } else {
      var result, whole := Result(buf, rd, wr, data), Unread(buf, rd, wr) + data;
      ResultAt(buf, rd, wr, data, 0);
      forall j | 0 <= j < |result|
        ensures result[j] == Last(whole, |buf| - 1)[j]
      {
        ResultAt(buf, rd, wr, data, j);
      }
    }
  }

  lemma FitsIsRight(buf: seq<Byte>, rd: nat, wr: nat, data: seq<Byte>)
    requires Offsets(buf, rd, wr) && |buf| >= 2 && |data| <= Free(|buf|, rd, wr)
    ensures Result(buf, rd, wr, data) == Unread(buf, rd, wr) + data
  {
    hide Copied, Unread, Twice;
    CopiedShort(buf, wr, data);
    var b := Twice(buf, wr, data);
    forall p | 0 <= p < |buf|
      ensures !(wr <= p < wr + |data|) && !(p + |buf| < wr + |data|) ==> b[p] == buf[p]
      ensures forall k :: 0 <= k < |data| && p == Slot(|buf|, wr + k) ==> b[p] == data[k]
    {
      TwiceAt(buf, wr, data, p);
    }
    UnreadStays(buf, b, rd, wr, data);
    Appended(buf, b, rd, wr, data);
  }

  // ------------------------------------------------------------- and when it fails

  /** The last slot is written only in the first round. */
  lemma {:induction false} LastSlotStays(buf: seq<Byte>, data: seq<Byte>)
    requires |buf| >= 2
    ensures Copied(buf, 0, data, |buf| - 1).0[|buf| - 1] == buf[|buf| - 1]
    ensures Copied(buf, 0, data, |buf| - 1).1 < |buf| - 1
    decreases |data|
  {
    var avail := |buf| - 1;
    if avail <= |data| {
      var b, rest := Blit(buf, 0, data[..avail]), data[avail..];
      if rest != [] { LastSlotStays(b, rest); }
    }
  }

  /** Zeros, but for the byte that lands in the last slot. */
  function Marked(n: nat, at: nat): seq<Byte> {
    seq(n, i => if i == at then 1 else 0)
  }

  lemma CopiedOn(buf: seq<Byte>, wr: nat, data: seq<Byte>)
    requires wr < |buf| && |buf| >= 2 && |buf| - wr < |data|
    ensures var avail := |buf| - wr;
      Copied(buf, wr, data, avail) == Copied(Blit(buf, wr, data[..avail]), 0, data[avail..], |buf| - 1)
  {
    assert data[|buf| - wr..] != [];
    hide Blit;
  }

  /** The last slot keeps the byte that the first of several rounds puts there. */
  lemma LastSlotKept(buf: seq<Byte>, wr: nat, data: seq<Byte>)
    requires wr < |buf| && |buf| >= 2 && |buf| - wr < |data|
    ensures Copied(buf, wr, data, |buf| - wr).0[|buf| - 1] == data[|buf| - wr - 1]
    ensures Copied(buf, wr, data, |buf| - wr).1 < |buf| - 1
  {
    hide Blit, Copied;
    var first, rest := data[..|buf| - wr], data[|buf| - wr..];
    BlitAt(buf, wr, first, |buf| - 1);
    LastSlotStays(Blit(buf, wr, first), rest);
    CopiedOn(buf, wr, data);
  }

  lemma LongIsWrong(buf: seq<Byte>, rd: nat, wr: nat, n: nat)
    requires Offsets(buf, rd, wr) && |buf| >= 2 && !Short(|buf|, wr, n)
    ensures var data := Marked(n, |buf| - wr - 1);
      Result(buf, rd, wr, data) != Wanted(buf, rd, wr, data)
  {
    hide Copied, Unread;
    var size, data := |buf|, Marked(n, |buf| - wr - 1);
    LastSlotKept(buf, wr, data);
    var (b, w) := Copied(buf, wr, data, size - wr);
    var r, unread := Pushed(size, rd, wr, n), Unread(buf, rd, wr);
    var result, wanted := Result(buf, rd, wr, data), Wanted(buf, rd, wr, data);
    assert |wanted| == size - 1 && wanted == (unread + data)[|unread| + n - (size - 1)..];
    if |result| == size - 1 {
      assert r == w + 1;
      var j := size - 1 - r;
      assert result[j] == b[size - 1] == 1;
      assert wanted[j] == data[n - 1 - w] == 0;
    }
  }

  /** The overwriting write leaves the newest bytes for every data of a length exactly when the length is
      short: it stays within the first round and less than a full second one. */
  lemma OverwriteExact(buf: seq<Byte>, rd: nat, wr: nat, n: nat)
    requires Offsets(buf, rd, wr) && |buf| >= 2
    ensures (forall data: seq<Byte> :: |data| == n ==> Result(buf, rd, wr, data) == Wanted(buf, rd, wr, data))
       <==> Short(|buf|, wr, n)
  {
    hide Result, Wanted;
    if Short(|buf|, wr, n) {
      forall data: seq<Byte> | |data| == n
        ensures Result(buf, rd, wr, data) == Wanted(buf, rd, wr, data)
      {
        ShortIsRight(buf, rd, wr, data);
      }
    } else {
      LongIsWrong(buf, rd, wr, n);
    }
  }
}
