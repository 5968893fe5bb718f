/** What an RTT ring buffer holds, as a value: one slot is always kept empty, so that equal offsets
    mean an empty buffer. */
module RttSpec {

  type Byte = bv8

  /** A position at most once round the end. */
  function Slot(size: nat, p: nat): (r: nat)
    requires p < 2 * size
    ensures r < size
  {
    if p < size then p else p - size
  }

  ghost predicate Offsets(buf: seq<Byte>, rd: nat, wr: nat) {
    rd < |buf| && wr < |buf|
  }

  /** The number of bytes written and not yet read. */
  function Count(size: nat, rd: nat, wr: nat): nat
    requires rd < size && wr < size
  {
    if rd <= wr then wr - rd else size - rd + wr
  }

  /** The number of bytes that fit. */
  function Free(size: nat, rd: nat, wr: nat): (f: nat)
    requires rd < size && wr < size
    ensures f == size - 1 - Count(size, rd, wr)
  {
    if rd <= wr then size - 1 - wr + rd else rd - wr - 1
  }

  /** The unread bytes, oldest first. */
  function Unread(buf: seq<Byte>, rd: nat, wr: nat): (u: seq<Byte>)
    requires Offsets(buf, rd, wr)
    ensures |u| == Count(|buf|, rd, wr)
    ensures forall i :: 0 <= i < |u| ==> u[i] == buf[Slot(|buf|, rd + i)]
  {
    if rd <= wr then buf[rd..wr] else buf[rd..] + buf[..wr]
  }

  /** Bytes written into free slots behind the write offset, which then moves behind them, follow the
      unread ones. */
  lemma Appended(buf0: seq<Byte>, buf1: seq<Byte>, rd: nat, wr: nat, data: seq<Byte>)
    requires Offsets(buf0, rd, wr) && |buf1| == |buf0| && |data| <= Free(|buf0|, rd, wr)
    requires Unread(buf1, rd, wr) == Unread(buf0, rd, wr)
    requires forall k :: 0 <= k < |data| ==> buf1[Slot(|buf0|, wr + k)] == data[k]
    ensures Unread(buf1, rd, Slot(|buf0|, wr + |data|)) == Unread(buf0, rd, wr) + data
  {
    var n := Count(|buf0|, rd, wr);
    var u := Unread(buf1, rd, Slot(|buf0|, wr + |data|));
    forall i | 0 <= i < |u|
      ensures u[i] == (Unread(buf0, rd, wr) + data)[i]
    {
      assert u[i] == buf1[Slot(|buf0|, rd + i)];
      if i < n {
        assert Unread(buf1, rd, wr)[i] == buf1[Slot(|buf0|, rd + i)];
      } else {
        assert Slot(|buf0|, rd + i) == Slot(|buf0|, wr + (i - n));
      }
    }
  }

  /** Moving the read offset past `m` unread bytes takes them off the front. */
  lemma Advanced(buf: seq<Byte>, rd: nat, wr: nat, m: nat)
    requires Offsets(buf, rd, wr) && m <= Count(|buf|, rd, wr)
    ensures Unread(buf, Slot(|buf|, rd + m), wr) == Unread(buf, rd, wr)[m..]
  {
    AdvancedCount(|buf|, rd, wr, m);
    hide Unread, Count;
    var t, u := Unread(buf, Slot(|buf|, rd + m), wr), Unread(buf, rd, wr);
    forall i | 0 <= i < |t|
      ensures t[i] == u[m + i]
    {
      AdvancedSlot(|buf|, rd, wr, m, i);
    }
  }

  lemma AdvancedCount(size: nat, rd: nat, wr: nat, m: nat)
    requires rd < size && wr < size && m <= Count(size, rd, wr)
    ensures Count(size, Slot(size, rd + m), wr) == Count(size, rd, wr) - m
  {
  }

  lemma AdvancedSlot(size: nat, rd: nat, wr: nat, m: nat, i: nat)
    requires rd < size && wr < size && m + i < Count(size, rd, wr)
    ensures Slot(size, Slot(size, rd + m) + i) == Slot(size, rd + (m + i))
  {
  }

  /** A free slot is not among the unread ones. */
  lemma FreeSlot(size: nat, rd: nat, wr: nat, k: nat, i: nat)
    requires rd < size && wr < size && k < Free(size, rd, wr) && i < Count(size, rd, wr)
    ensures Slot(size, wr + k) != Slot(size, rd + i)
  {
  }

  // ---------------------------------------------------------------- interleaving

  datatype Mode = Skip | Trim | Block

  /** Where a writer is. While it copies, `n` bytes of `pending` are going into the ring and `k` have
      gone; nothing of them is visible until the write offset moves. */
  datatype Writer = Resting | Deciding | Copying(n: nat, k: nat)

  /** A writer on the target and a reader on the host share a ring. `sent` is everything published,
      `got` everything the host has consumed. */
  datatype State = State(buf: seq<Byte>, rd: nat, wr: nat, writer: Writer, mode: Mode, pending: seq<Byte>,
                         sent: seq<Byte>, got: seq<Byte>)

  /** One access to shared memory: the writer starts a write, samples the read offset and so decides
      how much to copy, copies one byte, or publishes the write offset; the host reads `m` bytes. */
  datatype Access = Begin(mode: Mode, data: seq<Byte>) | Sample | CopyByte | Publish | HostRead(m: nat)

  /** What the writer copies next. Blocking writes go no further than the end of the buffer. */
  function Chunk(s: State): (n: nat)
    requires Offsets(s.buf, s.rd, s.wr)
    ensures n <= Free(|s.buf|, s.rd, s.wr) && n <= |s.pending|
  {
    var free, want := Free(|s.buf|, s.rd, s.wr), |s.pending|;
    match s.mode
    case Skip => if free < want then 0 else want
    case Trim => if free < want then free else want
    case Block =>
      var straight := if free < |s.buf| - s.wr then free else |s.buf| - s.wr;
      if straight < want then straight else want
  }

  /** A write in skip mode takes all or nothing, in trim mode what there is room for, and a round of a blocking write
      goes on as long as there is room at all. */
  lemma ChunkIs(s: State)
    requires Offsets(s.buf, s.rd, s.wr)
    ensures var room, want := |s.buf| - 1 - |Unread(s.buf, s.rd, s.wr)|, |s.pending|;
      && (s.mode.Skip? ==> Chunk(s) == if want <= room then want else 0)
      && (s.mode.Trim? ==> Chunk(s) == if want <= room then want else room)
      && (s.mode.Block? ==> Chunk(s) <= room && Chunk(s) <= want && (Chunk(s) == 0 <==> room == 0 || want == 0))
      && (s.mode.Block? && s.wr + Chunk(s) < |s.buf| ==> Chunk(s) == room || Chunk(s) == want)
  {
    hide Unread;
  }

  ghost predicate Possible(s: State, a: Access)
    requires Offsets(s.buf, s.rd, s.wr)
  {
    match a
    case Begin(_, _) => s.writer.Resting?
    case Sample => s.writer.Deciding?
    case CopyByte => s.writer.Copying? && s.writer.k < s.writer.n
    case Publish => s.writer.Copying? && s.writer.k == s.writer.n
    case HostRead(m) => m <= Count(|s.buf|, s.rd, s.wr)
  }

  ghost predicate Sound(s: State) {
    && Offsets(s.buf, s.rd, s.wr)
    && s.got + Unread(s.buf, s.rd, s.wr) == s.sent
    && (s.writer.Copying? ==>
          && s.writer.k <= s.writer.n <= Free(|s.buf|, s.rd, s.wr) && s.writer.n <= |s.pending|
          && forall i :: 0 <= i < s.writer.k ==> s.buf[Slot(|s.buf|, s.wr + i)] == s.pending[i])
  }

  function After(s: State, a: Access): State
    requires Sound(s) && Possible(s, a)
  {
    match a
    case Begin(mode, data) => s.(writer := Deciding, mode := mode, pending := data)
    case Sample => s.(writer := Copying(Chunk(s), 0))
    case CopyByte =>
      var k := s.writer.k;
      s.(buf := s.buf[Slot(|s.buf|, s.wr + k) := s.pending[k]], writer := Copying(s.writer.n, k + 1))
    case Publish =>
      var n := s.writer.n;
      var rest := s.pending[n..];
      s.(wr := Slot(|s.buf|, s.wr + n), sent := s.sent + s.pending[..n],
         pending := if s.mode.Block? then rest else [],
         writer := if s.mode.Block? && rest != [] then Deciding else Resting)
    case HostRead(m) =>
      s.(rd := Slot(|s.buf|, s.rd + m), got := s.got + Unread(s.buf, s.rd, s.wr)[..m])
  }

  /** A copy never touches an unread byte. */
  lemma CopyKeepsUnread(s: State)
    requires Sound(s) && s.writer.Copying? && s.writer.k < s.writer.n
    ensures var t := After(s, CopyByte);
      Unread(t.buf, t.rd, t.wr) == Unread(s.buf, s.rd, s.wr) && Sound(t)
  {
    var t, p := After(s, CopyByte), Slot(|s.buf|, s.wr + s.writer.k);
    var u := Unread(s.buf, s.rd, s.wr);
    forall i | 0 <= i < |u|
      ensures Unread(t.buf, t.rd, t.wr)[i] == u[i]
    {
      FreeSlot(|s.buf|, s.rd, s.wr, s.writer.k, i);
    }
    assert Unread(t.buf, t.rd, t.wr) == u;
  }

  lemma PublishKeeps(s: State)
    requires Sound(s) && Possible(s, Publish)
    ensures Sound(After(s, Publish))
  {
    hide Unread;
    var chunk, u := s.pending[..s.writer.n], Unread(s.buf, s.rd, s.wr);
    Appended(s.buf, s.buf, s.rd, s.wr, chunk);
    assert s.got + (u + chunk) == (s.got + u) + chunk;
  }

  lemma SplitAt(a: seq<Byte>, u: seq<Byte>, m: nat)
    requires m <= |u|
    ensures (a + u[..m]) + u[m..] == a + u
  {
    assert u == u[..m] + u[m..];
  }

  lemma HostReadKeeps(s: State, m: nat)
    requires Sound(s) && Possible(s, HostRead(m))
    ensures Sound(After(s, HostRead(m)))
  {
    hide Unread;
    var u := Unread(s.buf, s.rd, s.wr);
    Advanced(s.buf, s.rd, s.wr, m);
    SplitAt(s.got, u, m);
  }

  /** Every access keeps the stream: what the host has and what it can still read is what was sent. */
  lemma AccessSound(s: State, a: Access)
    requires Sound(s) && Possible(s, a)
    ensures Sound(After(s, a))
  {
    match a
    case Begin(_, _) =>
    case Sample =>
    case CopyByte => CopyKeepsUnread(s);
    case Publish => PublishKeeps(s);
    case HostRead(m) => HostReadKeeps(s, m);
  }

  /** Each access is possible in the state the ones before it lead to. */
  ghost predicate Feasible(s: State, run: seq<Access>)
    requires Sound(s)
    decreases |run|
  {
    run == [] || (Possible(s, run[0]) && (AccessSound(s, run[0]); Feasible(After(s, run[0]), run[1..])))
  }

  ghost function End(s: State, run: seq<Access>): State
    requires Sound(s) && Feasible(s, run)
    decreases |run|
  {
    if run == [] then s
    else
      AccessSound(s, run[0]);
      End(After(s, run[0]), run[1..])
  }

  /** Everything offered by the writes of a run. */
  function Offered(run: seq<Access>): seq<Byte> {
    if run == [] then []
    else (if run[0].Begin? then run[0].data else []) + Offered(run[1..])
  }

  ghost predicate AllBlocking(run: seq<Access>) {
    forall i :: 0 <= i < |run| && run[i].Begin? ==> run[i].mode.Block?
  }

  /** Under every interleaving of one writer and the host: the host has a prefix of what was sent, the
      rest is unread and fits the ring less one slot. */
  lemma {:induction false} StreamFaithful(s: State, run: seq<Access>)
    requires Sound(s) && Feasible(s, run)
    ensures var t := End(s, run);
      && Sound(t) && t.got <= t.sent && |t.sent| - |t.got| == Count(|t.buf|, t.rd, t.wr) <= |t.buf| - 1
      && s.got <= t.got && s.sent <= t.sent
    decreases |run|
  {
    if run != [] {
      AccessSound(s, run[0]);
      StreamFaithful(After(s, run[0]), run[1..]);
    }
  }

  lemma BlockingAccess(s: State, a: Access)
    requires Sound(s) && Possible(s, a) && (a.Begin? ==> a.mode.Block?)
    requires s.writer.Resting? ==> s.pending == []
    requires s.writer.Resting? || s.mode.Block?
    ensures var t := After(s, a);
      && t.sent + t.pending == s.sent + s.pending + (if a.Begin? then a.data else [])
      && (t.writer.Resting? ==> t.pending == []) && (t.writer.Resting? || t.mode.Block?)
  {
    hide Unread;
    if a.Publish? {
      var n := s.writer.n;
      assert s.pending == s.pending[..n] + s.pending[n..];
      assert (s.sent + s.pending[..n]) + s.pending[n..] == s.sent + s.pending;
    }
  }

  /** When every write blocks, nothing offered is dropped, duplicated or reordered. */
  lemma {:induction false} BlockingLosesNothing(s: State, run: seq<Access>)
    requires Sound(s) && Feasible(s, run) && AllBlocking(run) && (s.writer.Resting? ==> s.pending == [])
    requires s.writer.Resting? || s.mode.Block?
    ensures var t := End(s, run);
      t.sent + t.pending == s.sent + s.pending + Offered(run) && (t.writer.Resting? ==> t.pending == [])
    decreases |run|
  {
    hide Sound, After, Possible;
    if run != [] {
      var a, rest, t := run[0], run[1..], After(s, run[0]);
      AccessSound(s, a);
      assert AllBlocking(rest) by { assert forall i :: 0 <= i < |rest| ==> rest[i] == run[i + 1]; }
      BlockingAccess(s, a);
      BlockingLosesNothing(t, rest);
      var offer := if a.Begin? then a.data else [];
      assert (s.sent + s.pending + offer) + Offered(rest) == s.sent + s.pending + (offer + Offered(rest));
    }
  }
}
