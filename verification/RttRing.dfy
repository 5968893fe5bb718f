/** The ring buffers of SEGGER_RTT.c, in place: a byte array and two offsets. Up and down buffers have
    the same layout and the same code reads both. */
module RttRing {
  import opened RttSpec

  const MODE_NO_BLOCK_SKIP: nat := 0
  const MODE_NO_BLOCK_TRIM: nat := 1
  const MODE_BLOCK_IF_FIFO_FULL: nat := 2

  /** `buf` with `data` copied over it from `at` on. */
  function Blit(buf: seq<Byte>, at: nat, data: seq<Byte>): (r: seq<Byte>)
    requires at + |data| <= |buf|
    ensures |r| == |buf|
  {
    buf[..at] + data + buf[at + |data|..]
  }

  /** Contents and write offset after a write that is dropped unless all of it fits. */
  function SkipContents(contents: seq<Byte>, size: nat, data: seq<Byte>): seq<Byte> {
    if |contents| + |data| < size then contents + data else contents
  }

  function SkipOffset(contents: seq<Byte>, size: nat, wr: nat, data: seq<Byte>): nat
    requires wr < size
  {
    if |contents| + |data| < size then Slot(size, wr + |data|) else wr
  }

  method CopyIn(buf: array<Byte>, at: nat, data: seq<Byte>, from: nat, n: nat)
    requires at + n <= buf.Length && from + n <= |data|
    modifies buf
    ensures buf[..] == Blit(old(buf[..]), at, data[from..from + n])
  {
    ghost var was := buf[..];
    var i := 0;
    while i < n
      invariant i <= n
      invariant forall j :: 0 <= j < buf.Length ==> buf[j] == if at <= j < at + i then data[from + j - at] else was[j]
    {
      buf[at + i] := data[from + i];
      i := i + 1;
    }
    assert buf[..] == Blit(was, at, data[from..from + n]);
  }

  lemma BlitAt(buf: seq<Byte>, at: nat, data: seq<Byte>, p: nat)
    requires at + |data| <= |buf| && p < |buf|
    ensures Blit(buf, at, data)[p] == if at <= p < at + |data| then data[p - at] else buf[p]
  {
  }

  /** One copy, or one up to the end and one from the start, appends to the unread bytes. */
  lemma BlitAppends(buf: seq<Byte>, rd: nat, wr: nat, data: seq<Byte>)
    requires Offsets(buf, rd, wr) && |data| <= Free(|buf|, rd, wr)
    ensures wr + |data| <= |buf| ==>
      Unread(Blit(buf, wr, data), rd, Slot(|buf|, wr + |data|)) == Unread(buf, rd, wr) + data
    ensures |buf| <= wr + |data| ==>
      var rem := |buf| - wr;
      Unread(Blit(Blit(buf, wr, data[..rem]), 0, data[rem..]), rd, |data| - rem) == Unread(buf, rd, wr) + data
  {
    hide Unread, Blit;
    if wr + |data| <= |buf| { StraightAppends(buf, rd, wr, data); }
    if |buf| <= wr + |data| { WrapAppends(buf, rd, wr, data); }
  }

  lemma WrapAppends(buf: seq<Byte>, rd: nat, wr: nat, data: seq<Byte>)
    requires Offsets(buf, rd, wr) && |data| <= Free(|buf|, rd, wr) && |buf| <= wr + |data|
    ensures var rem := |buf| - wr;
      Unread(Blit(Blit(buf, wr, data[..rem]), 0, data[rem..]), rd, |data| - rem) == Unread(buf, rd, wr) + data
  {
    hide Unread, Blit;
    var rem := |buf| - wr;
    var b0 := Blit(buf, wr, data[..rem]);
    var b := Blit(b0, 0, data[rem..]);
    forall p | 0 <= p < |b|
      ensures b[p] == if p + |buf| < wr + |data| then data[p + rem] else if wr <= p then data[p - wr] else buf[p]
    {
      BlitAt(buf, wr, data[..rem], p);
      BlitAt(b0, 0, data[rem..], p);
    }
    UnreadStays(buf, b, rd, wr, data);
    Appended(buf, b, rd, wr, data);
  }

  lemma StraightAppends(buf: seq<Byte>, rd: nat, wr: nat, data: seq<Byte>)
    requires Offsets(buf, rd, wr) && |data| <= Free(|buf|, rd, wr) && wr + |data| <= |buf|
    ensures Unread(Blit(buf, wr, data), rd, Slot(|buf|, wr + |data|)) == Unread(buf, rd, wr) + data
  {
    hide Unread, Blit;
    var b := Blit(buf, wr, data);
    forall p | 0 <= p < |b|
      ensures b[p] == if wr <= p < wr + |data| then data[p - wr] else buf[p]
    {
      BlitAt(buf, wr, data, p);
    }
    UnreadStays(buf, b, rd, wr, data);
    Appended(buf, b, rd, wr, data);
  }

  lemma UnreadStays(buf: seq<Byte>, b: seq<Byte>, rd: nat, wr: nat, data: seq<Byte>)
    requires Offsets(buf, rd, wr) && |data| <= Free(|buf|, rd, wr) && |b| == |buf|
    requires forall p :: 0 <= p < |b| && !(wr <= p < wr + |data|) && !(p + |buf| < wr + |data|) ==> b[p] == buf[p]
    ensures Unread(b, rd, wr) == Unread(buf, rd, wr)
  {
    var u := Unread(buf, rd, wr);
    forall i | 0 <= i < |u|
      ensures Unread(b, rd, wr)[i] == u[i]
    {
      var p := Slot(|buf|, rd + i);
      assert b[p] == buf[p];
    }
  }

  /** Two stretches of a stream join up. */
  lemma Joined(got: seq<Byte>, c0: seq<Byte>, u: seq<Byte>, c1: seq<Byte>, was: seq<Byte>, data: seq<Byte>,
               from: nat, n: nat)
    requires from + n <= |data| && got + c0 == was + data[..from] && u + c1 == c0 + data[from..from + n]
    ensures (got + u) + c1 == was + data[..from + n]
  {
    assert data[..from + n] == data[..from] + data[from..from + n];
    assert (got + u) + c1 == got + (u + c1) == (got + c0) + data[from..from + n];
  }

  /** The host reads something at least once in any `gap` rounds in a row. */
  ghost predicate KeepsReading(host: nat -> nat, gap: nat) {
    forall i: nat :: ReadsSoon(host, gap, i)
  }

  ghost predicate ReadsSoon(host: nat -> nat, gap: nat, from: nat) {
    exists i: nat :: from <= i < from + gap && host(i) > 0
  }

  lemma NotIdleLong(host: nat -> nat, gap: nat, from: nat, n: nat)
    requires KeepsReading(host, gap) && forall j: nat :: from <= j < from + n ==> host(j) == 0
    ensures n < gap
  {
    assert ReadsSoon(host, gap, from);
  }

  class Ring {
    const buf: array<Byte>
    var rdOff: nat
    var wrOff: nat
    var flags: nat

    ghost predicate Valid()
      reads this, buf
    {
      Offsets(buf[..], rdOff, wrOff)
    }

    ghost function Contents(): (u: seq<Byte>)
      requires Valid()
      reads this, buf
      ensures |u| == Count(buf.Length, rdOff, wrOff) < buf.Length
    {
      Unread(buf[..], rdOff, wrOff)
    }

    constructor (buf: array<Byte>, flags: nat)
      requires buf.Length > 0
      ensures this.buf == buf && this.flags == flags && Valid() && Contents() == []
    {
      this.buf, this.flags, rdOff, wrOff := buf, flags, 0, 0;
    }

    /** _GetAvailWriteSpace */
    method GetAvailWriteSpace() returns (avail: nat)
      requires Valid()
      ensures avail == buf.Length - 1 - |Contents()|
    {
      if rdOff <= wrOff {
        avail := buf.Length - 1 - wrOff + rdOff;
      } else {
        avail := rdOff - wrOff - 1;
      }
    }

    /** _WriteNoCheck, for data that fits. */
    method WriteNoCheck(data: seq<Byte>)
      requires Valid() && |data| <= buf.Length - 1 - |Contents()|
      modifies this`wrOff, buf
      ensures Valid() && Contents() == old(Contents()) + data
      ensures wrOff == Slot(buf.Length, old(wrOff) + |data|)
    {
      hide Unread, Blit;
      BlitAppends(buf[..], rdOff, wrOff, data);
      var rem := buf.Length - wrOff;
      if rem > |data| {
        CopyIn(buf, wrOff, data, 0, |data|);
        assert data[0..|data|] == data;
        wrOff := wrOff + |data|;
      } else {
        CopyIn(buf, wrOff, data, 0, rem);
        var atOnce := |data| - rem;
        CopyIn(buf, 0, data, rem, atOnce);
        assert data[rem..rem + atOnce] == data[rem..];
        wrOff := atOnce;
      }
    }

    /** SEGGER_RTT_WriteSkipNoLock: the fast form of a write in skip mode. */
    method WriteSkip(data: seq<Byte>) returns (copied: bool)
      requires Valid()
      modifies this`wrOff, buf
      ensures Valid() && copied == (|old(Contents())| + |data| < buf.Length)
      ensures Contents() == SkipContents(old(Contents()), buf.Length, data)
      ensures wrOff == SkipOffset(old(Contents()), buf.Length, old(wrOff), data)
    {
      var rd, wr := rdOff, wrOff;
      if rd <= wr {
        var avail := buf.Length - wr - 1;
        if avail >= |data| {
          CopyStraight(data);
          return true;
        }
        avail := avail + rd;
        if avail >= |data| {
          BlitAppends(buf[..], rd, wr, data);
          var rem := buf.Length - wr;
          CopyIn(buf, wr, data, 0, rem);
          var n := |data| - rem;
          if n > 0 {
            CopyIn(buf, 0, data, rem, n);
          }
          assert data[rem..rem + n] == data[rem..];
          assert n == 0 ==> Blit(buf[..], 0, data[rem..]) == buf[..];
          wrOff := n;
          return true;
        }
      } else {
        var avail := rd - wr - 1;
        if avail >= |data| {
          CopyStraight(data);
          return true;
        }
      }
      return false;
    }

    /** The label CopyStraight, reached from two places. */
    method CopyStraight(data: seq<Byte>)
      requires Valid() && |data| <= Free(buf.Length, rdOff, wrOff) && wrOff + |data| < buf.Length
      modifies this`wrOff, buf
      ensures Valid() && Contents() == old(Contents()) + data && wrOff == old(wrOff) + |data|
    {
      BlitAppends(buf[..], rdOff, wrOff, data);
      CopyIn(buf, wrOff, data, 0, |data|);
      assert data[0..|data|] == data;
      wrOff := wrOff + |data|;
    }

    /** SEGGER_RTT_PutCharSkipNoLock */
    method PutCharSkip(c: Byte) returns (status: nat)
      requires Valid()
      modifies this`wrOff, buf
      ensures Valid() && status == if |old(Contents())| + 1 < buf.Length then 1 else 0
      ensures Contents() == SkipContents(old(Contents()), buf.Length, [c])
      ensures wrOff == SkipOffset(old(Contents()), buf.Length, old(wrOff), [c])
    {
      var wr := wrOff + 1;
      if wr == buf.Length {
        wr := 0;
      }
      if wr != rdOff {
        StraightAppends(buf[..], rdOff, wrOff, [c]);
        ghost var was := buf[..];
        buf[wrOff] := c;
        assert buf[..] == Blit(was, wrOff, [c]);
        wrOff := wr;
        status := 1;
      } else {
        status := 0;
      }
    }

    /** The host, or a reader on the target, takes up to `most` bytes off the front. */
    method HostRead(most: nat) returns (ghost got: seq<Byte>)
      requires Valid()
      modifies this`rdOff
      ensures Valid() && old(Contents()) == got + Contents()
      ensures |got| == if most < |old(Contents())| then most else |old(Contents())|
    {
      hide Unread;
      var count := if rdOff <= wrOff then wrOff - rdOff else buf.Length - rdOff + wrOff;
      var m := if most < count then most else count;
      got := Contents()[..m];
      Advanced(buf[..], rdOff, wrOff, m);
      ghost var u := Contents();
      assert u == u[..m] + u[m..];
      rdOff := if rdOff + m < buf.Length then rdOff + m else rdOff + m - buf.Length;
    }

    /** One round of _WriteBlocking, after the host has read up to `most` bytes. */
    method Round(data: seq<Byte>, from: nat, most: nat) returns (n: nat, ghost got: seq<Byte>)
      requires Valid() && from <= |data|
      modifies this`wrOff, this`rdOff, buf
      ensures Valid() && from + n <= |data|
      ensures got + Contents() == old(Contents()) + data[from..from + n]
      ensures buf.Length >= 2 && most > 0 && from < |data| ==> n > 0
    {
      hide Unread;
      got := HostRead(most);
      n := NextChunk(|data| - from);
      ghost var c, d := Contents(), data[from..from + n];
      WriteChunk(data, from, n);
      assert (got + c) + d == got + (c + d);
    }

    /** _WriteBlocking. Before round `i` of the loop the host reads up to `host(i)` bytes. It need not read every
        time, but as long as it goes on reading the loop ends, and everything has been written. */
    method WriteBlocking(data: seq<Byte>, host: nat -> nat, ghost gap: nat) returns (written: nat, ghost got: seq<Byte>)
      requires Valid() && buf.Length >= 2 && KeepsReading(host, gap)
      modifies this`wrOff, this`rdOff, buf
      ensures Valid() && written == |data| && got + Contents() == old(Contents()) + data
    {
      hide Unread, Offsets, KeepsReading;
      ghost var was := Contents();
      var i := 0;
      ghost var idle := 0;
      written := 0;
      got := [];
      while i == 0 || written < |data|
        invariant Valid() && written <= |data| && idle <= i && (written < |data| ==> idle <= gap)
        invariant got + Contents() == was + data[..written]
        invariant forall j :: i - idle <= j < i ==> host(j) == 0
        decreases |data| - written, if i == 0 then gap + 1 else gap - idle
      {
        ghost var c := Contents();
        var n; ghost var u;
        n, u := Round(data, written, host(i));
        Joined(got, c, u, Contents(), was, data, written, n);
        got := got + u;
        written := written + n;
        idle := if host(i) == 0 then idle + 1 else 0;
        i := i + 1;
        NotIdleLong(host, gap, i - idle, idle);
      }
      assert data[..written] == data;
    }

    /** How much a round of _WriteBlocking copies. */
    method NextChunk(want: nat) returns (n: nat)
      requires Valid()
      ensures n <= want && n <= Free(buf.Length, rdOff, wrOff) && wrOff + n <= buf.Length
      ensures n == want || n == Free(buf.Length, rdOff, wrOff) || wrOff + n == buf.Length
    {
      if rdOff > wrOff {
        n := rdOff - wrOff - 1;
      } else {
        n := buf.Length - (wrOff - rdOff + 1);
      }
      n := if n < buf.Length - wrOff then n else buf.Length - wrOff;
      n := if n < want then n else want;
    }

    method WriteChunk(data: seq<Byte>, from: nat, n: nat)
      requires Valid() && from + n <= |data| && n <= Free(buf.Length, rdOff, wrOff) && wrOff + n <= buf.Length
      modifies this`wrOff, buf
      ensures Valid() && Contents() == old(Contents()) + data[from..from + n]
    {
      StraightAppends(buf[..], rdOff, wrOff, data[from..from + n]);
      CopyIn(buf, wrOff, data, from, n);
      wrOff := wrOff + n;
      if wrOff == buf.Length {
        wrOff := 0;
      }
    }

    /** SEGGER_RTT_WriteNoLock: what a write does depends on the mode. */
    method Write(data: seq<Byte>, host: nat -> nat, ghost gap: nat) returns (status: nat, ghost got: seq<Byte>)
      requires Valid() && (flags == MODE_BLOCK_IF_FIFO_FULL ==> buf.Length >= 2 && KeepsReading(host, gap))
      modifies this`wrOff, this`rdOff, buf
      ensures Valid() && status <= |data|
      ensures got + Contents() == old(Contents()) + data[..status]
      ensures flags == MODE_NO_BLOCK_SKIP ==>
        && got == [] && Contents() == SkipContents(old(Contents()), buf.Length, data)
        && wrOff == SkipOffset(old(Contents()), buf.Length, old(wrOff), data)
        && status == if |old(Contents())| + |data| < buf.Length then |data| else 0
      ensures flags == MODE_NO_BLOCK_TRIM ==>
        got == [] && (status == |data| || |Contents()| == buf.Length - 1)
      ensures flags == MODE_BLOCK_IF_FIFO_FULL ==> status == |data|
      ensures flags > MODE_BLOCK_IF_FIFO_FULL ==> got == [] && status == 0
    {
      hide Unread;
      got := [];
      if flags == MODE_NO_BLOCK_SKIP {
        var avail := GetAvailWriteSpace();
        if avail < |data| {
          status := 0;
        } else {
          status := |data|;
          assert data[..|data|] == data;
          WriteNoCheck(data);
        }
      } else if flags == MODE_NO_BLOCK_TRIM {
        var avail := GetAvailWriteSpace();
        status := if avail < |data| then avail else |data|;
        WriteNoCheck(data[..status]);
      } else if flags == MODE_BLOCK_IF_FIFO_FULL {
        status, got := WriteBlocking(data, host, gap);
      } else {
        status := 0;
      }
    }

    method CopyOut(dst: array<Byte>, at: nat, from: nat, n: nat)
      requires at + n <= dst.Length && from + n <= buf.Length && dst != buf
      modifies dst
      ensures dst[..] == Blit(old(dst[..]), at, buf[from..from + n])
    {
      ghost var was := dst[..];
      var i := 0;
      while i < n
        invariant i <= n
        invariant forall j :: 0 <= j < dst.Length ==> dst[j] == if at <= j < at + i then buf[from + j - at] else was[j]
      {
        dst[at + i] := buf[from + i];
        i := i + 1;
      }
      assert dst[..] == Blit(was, at, buf[from..from + n]);
    }

    /** SEGGER_RTT_ReadNoLock, and SEGGER_RTT_ReadUpNoLock, which is the same code. */
    method Read(dst: array<Byte>, size: nat) returns (read: nat)
      requires Valid() && dst != buf && size <= dst.Length && buf.Length < UINT32_LIMIT
      modifies this`rdOff, dst
      ensures Valid() && read == if size < |old(Contents())| then size else |old(Contents())|
      ensures Contents() == old(Contents())[read..]
      ensures dst[..] == Blit(old(dst[..]), 0, old(Contents())[..read])
    {
      hide Unread, Blit, Slot;
      var rd;
      read, rd := ReadBoth(dst, size, buf[..]);
      Advanced(buf[..], rdOff, wrOff, read);
      if read > 0 {
        rdOff := rd;
      } else {
        SlotHere(buf.Length, rdOff);
      }
    }

    /** Both parts of a read. Offsets are 32 bits wide: the difference of the second part wraps around
        when the first was cut short. */
    method ReadBoth(dst: array<Byte>, size: nat, ghost b: seq<Byte>) returns (read: nat, rd: nat)
      requires Valid() && dst != buf && size <= dst.Length && buf.Length < UINT32_LIMIT && b == buf[..]
      modifies dst
      ensures read == if size < |Unread(b, rdOff, wrOff)| then size else |Unread(b, rdOff, wrOff)|
      ensures read > 0 ==> rd == Slot(buf.Length, rdOff + read)
      ensures dst[..] == Blit(old(dst[..]), 0, Unread(b, rdOff, wrOff)[..read])
    {
      hide Unread, Blit, Slot, Count;
      ghost var d := dst[..];
      var first;
      first, rd := ReadToEnd(dst, size, b);
      var rest := if rd <= wrOff then wrOff - rd else UINT32_LIMIT + wrOff - rd;
      var second := if rest < size - first then rest else size - first;
      ghost var a := if rdOff > wrOff then b[rdOff..rdOff + first] else [];
      ReadFacts(b, rdOff, wrOff, size, first, rd, rest, second, a);
      if second > 0 {
        CopyBehind(dst, first, rd, second, d, a, b);
        rd := rd + second;
      }
      read := first + second;
    }

    method CopyBehind(dst: array<Byte>, at: nat, from: nat, n: nat, ghost d: seq<Byte>, ghost a: seq<Byte>,
                      ghost b: seq<Byte>)
      requires at == |a| && at + n <= |d| && from + n <= buf.Length && dst != buf && dst[..] == Blit(d, 0, a)
      requires b == buf[..]
      modifies dst
      ensures dst[..] == Blit(d, 0, a + b[from..from + n])
    {
      hide Blit;
      BlitJoins(d, a, b[from..from + n]);
      CopyOut(dst, at, from, n);
    }

    /** The first part of a read, up to the end of a buffer whose unread bytes wrap around. */
    method ReadToEnd(dst: array<Byte>, size: nat, ghost b: seq<Byte>) returns (first: nat, rd: nat)
      requires Valid() && b == buf[..] && dst != buf && size <= dst.Length
      modifies dst
      ensures rdOff <= wrOff ==> first == 0 && rd == rdOff
      ensures rdOff > wrOff ==> first == if buf.Length - rdOff < size then buf.Length - rdOff else size
      ensures rdOff > wrOff ==> rd == if rdOff + first == buf.Length then 0 else rdOff + first
      ensures dst[..] == Blit(old(dst[..]), 0, if rdOff > wrOff then b[rdOff..rdOff + first] else [])
    {
      first, rd := 0, rdOff;
      if rd > wrOff {
        var rem := buf.Length - rd;
        first := if rem < size then rem else size;
        CopyOut(dst, 0, rd, first);
        rd := rd + first;
        if rd == buf.Length {
          rd := 0;
        }
      }
    }
  }

  const UINT32_LIMIT: nat := 0x1_0000_0000

  /** How many bytes the two copies of a read take, and where they leave the offset. */
  lemma ReadCounts(n: nat, rd: nat, wr: nat, size: nat, first: nat, next: nat, rest: nat, second: nat)
    requires rd < n < UINT32_LIMIT && wr < n
    requires rd <= wr ==> first == 0 && next == rd
    requires rd > wr ==> first == (if n - rd < size then n - rd else size)
    requires rd > wr ==> next == if rd + first == n then 0 else rd + first
    requires rest == if next <= wr then wr - next else UINT32_LIMIT + wr - next
    requires first <= size && second == if rest < size - first then rest else size - first
    ensures first + second == if size < Count(n, rd, wr) then size else Count(n, rd, wr)
    ensures second > 0 && rd > wr ==> first == n - rd && next == 0
    ensures next + second <= n && Slot(n, rd + (first + second)) == if first + second > 0 then next + second else rd
  {
  }

  lemma ReadFacts(b: seq<Byte>, rd: nat, wr: nat, size: nat, first: nat, next: nat, rest: nat, second: nat,
                  a: seq<Byte>)
    requires Offsets(b, rd, wr) && |b| < UINT32_LIMIT
    requires rd <= wr ==> first == 0 && next == rd && a == []
    requires rd > wr ==> first == (if |b| - rd < size then |b| - rd else size) && a == b[rd..rd + first]
    requires rd > wr ==> next == if rd + first == |b| then 0 else rd + first
    requires rest == if next <= wr then wr - next else UINT32_LIMIT + wr - next
    requires first <= size && second == if rest < size - first then rest else size - first
    ensures first + second == if size < |Unread(b, rd, wr)| then size else |Unread(b, rd, wr)|
    ensures next + second <= |b| && |a| == first
    ensures first + second > 0 ==> next + second == Slot(|b|, rd + (first + second))
    ensures a + b[next..next + second] == Unread(b, rd, wr)[..first + second]
    ensures second == 0 ==> a == Unread(b, rd, wr)[..first + second]
  {
    hide Unread, Slot, Count;
    ReadCounts(|b|, rd, wr, size, first, next, rest, second);
    ReadParts(b, rd, wr, first, second, a);
  }

  lemma SlotHere(n: nat, p: nat)
    requires p < n
    ensures Slot(n, p) == p
  {
  }

  lemma BlitJoins(d: seq<Byte>, a: seq<Byte>, b: seq<Byte>)
    requires |a| + |b| <= |d|
    ensures Blit(Blit(d, 0, a), |a|, b) == Blit(d, 0, a + b)
  {
  }

  /** What the two copies of a read take. */
  lemma ReadParts(buf: seq<Byte>, rd: nat, wr: nat, first: nat, second: nat, a: seq<Byte>)
    requires Offsets(buf, rd, wr) && first + second <= Count(|buf|, rd, wr)
    requires if rd <= wr then first == 0 else first <= |buf| - rd && (second > 0 ==> first == |buf| - rd)
    requires a == if rd > wr then buf[rd..rd + first] else []
    ensures second == 0 ==> a == Unread(buf, rd, wr)[..first]
    ensures second > 0 ==>
      var from := if rd > wr then 0 else rd;
      from + second <= |buf| && a + buf[from..from + second] == Unread(buf, rd, wr)[..first + second]
  {
  }
}
