/** A circular byte queue. An index may rest one past the last byte; one byte of the buffer is
    always kept free. */
module FifoQueue {

  type byte = x: int | 0 <= x < 256

  /** Half of what a signed 32-bit integer holds: the sum of an index and the size still fits. */
  const LIMIT: nat := 0x3fff_ffff
  const INT_MAX: nat := 0x7fff_ffff

  datatype Ring = Ring(bytes: seq<byte>, read: nat, write: nat)

  function Min(a: int, b: int): int {
    if a < b then a else b
  }

  /** With the read index at 0 the write index never rests at the end. */
  ghost predicate Ok(r: Ring) {
    && 1 <= |r.bytes| <= LIMIT && r.read <= |r.bytes| && r.write <= |r.bytes|
    && !(r.read == 0 && r.write == |r.bytes|)
  }

  /** The queued bytes, oldest first. */
  ghost function Contents(r: Ring): seq<byte>
    requires Ok(r)
  {
    if r.read <= r.write then r.bytes[r.read..r.write] else r.bytes[r.read..] + r.bytes[..r.write]
  }

  function DataSize(r: Ring): int {
    if r.read == r.write then 0
    else if r.read < r.write then r.write - r.read
    else r.write + |r.bytes| - r.read
  }

  function FreeSize(r: Ring): int {
    |r.bytes| - DataSize(r) - 1
  }

  lemma SizeIsLength(r: Ring)
    requires Ok(r)
    ensures DataSize(r) == |Contents(r)| && 0 <= FreeSize(r) == |r.bytes| - 1 - |Contents(r)|
  {
  }

  /** `s` with the bytes from `at` on replaced by `t`. */
  function Overwritten(s: seq<byte>, at: nat, t: seq<byte>): (r: seq<byte>)
    requires at + |t| <= |s|
    ensures |r| == |s|
    ensures forall k :: 0 <= k < |s| ==> r[k] == if at <= k < at + |t| then t[k - at] else s[k]
  {
    seq(|s|, k requires 0 <= k < |s| => if at <= k < at + |t| then t[k - at] else s[k])
  }

  /** The bytes a read delivers, and the ring after it. */
  function Taken(r: Ring, count: nat): (seq<byte>, Ring)
    requires Ok(r)
  {
    SizeIsLength(r);
    var n := Min(DataSize(r), count);
    (Pieces(r, n), Advanced(r, n))
  }

  /** `n` bytes from the read index on, in one piece or two. */
  function Pieces(r: Ring, n: nat): seq<byte>
    requires Ok(r) && n <= DataSize(r)
  {
    if r.read + n > |r.bytes| then
      var atEnd := |r.bytes| - r.read;
      r.bytes[r.read..r.read + atEnd] + r.bytes[0..n - atEnd]
    else
      r.bytes[r.read..r.read + n]
  }

  function Advanced(r: Ring, n: nat): Ring
    requires Ok(r) && n <= DataSize(r)
  {
    r.(read := if r.read + n > |r.bytes| then r.read + n - |r.bytes| else r.read + n)
  }

  /** The ring after bytes that fit, in one piece or two. */
  function Stored(r: Ring, data: seq<byte>): Ring
    requires Ok(r) && |data| <= FreeSize(r)
  {
    SizeIsLength(r);
    if r.write + |data| > |r.bytes| then
      var atEnd := |r.bytes| - r.write;
      Ring(Overwritten(Overwritten(r.bytes, r.write, data[..atEnd]), 0, data[atEnd..]), r.read, |data| - atEnd)
    else
      Ring(Overwritten(r.bytes, r.write, data), r.read, r.write + |data|)
  }

  /** The number of bytes that fit, and the ring after them. */
  function Written(r: Ring, data: seq<byte>): (nat, Ring)
    requires Ok(r)
  {
    SizeIsLength(r);
    var n := Min(FreeSize(r), |data|);
    (n, Stored(r, data[..n]))
  }

  /** The bytes moved to the start of a larger buffer; what follows them is `rest`. */
  function Grown(r: Ring, rest: seq<byte>): Ring
    requires Ok(r)
  {
    var all := Taken(r, DataSize(r)).0;
    Ring(all + rest, 0, |all|)
  }

  // ---------- the queue byte by byte ----------

  /** The byte `i` places behind the read index, around the end. */
  ghost function ByteAt(r: Ring, i: nat): byte
    requires r.read <= |r.bytes| && i < |r.bytes|
  {
    if r.read + i < |r.bytes| then r.bytes[r.read + i] else r.bytes[r.read + i - |r.bytes|]
  }

  ghost predicate HoldsFrom(r: Ring, at: nat, s: seq<byte>) {
    && r.read <= |r.bytes| && at + |s| <= |r.bytes|
    && forall i :: 0 <= i < |s| ==> s[i] == ByteAt(r, at + i)
  }

  lemma ContentsAreHeld(r: Ring)
    requires Ok(r)
    ensures |Contents(r)| == DataSize(r) && HoldsFrom(r, 0, Contents(r))
  {
    if r.read <= r.write {
      OnePieceHeld(r, 0, r.write - r.read);
    } else {
      TwoPiecesHeld(r, r.write);
    }
  }

  lemma OnePieceHeld(r: Ring, at: nat, n: nat)
    requires r.read + at + n <= |r.bytes|
    ensures HoldsFrom(r, at, r.bytes[r.read + at..r.read + at + n])
  {
  }

  lemma TwoPiecesHeld(r: Ring, k: nat)
    requires k <= r.read <= |r.bytes|
    ensures HoldsFrom(r, 0, r.bytes[r.read..] + r.bytes[..k])
  {
  }

  lemma PiecesAreHeld(r: Ring, n: nat)
    requires Ok(r) && n <= DataSize(r)
    ensures |Pieces(r, n)| == n && HoldsFrom(r, 0, Pieces(r, n))
  {
    if r.read + n > |r.bytes| {
      var k := n - (|r.bytes| - r.read);
      assert r.bytes[r.read..r.read + (|r.bytes| - r.read)] == r.bytes[r.read..] && r.bytes[0..k] == r.bytes[..k];
      TwoPiecesHeld(r, k);
    } else {
      OnePieceHeld(r, 0, n);
    }
  }

  lemma AdvancedHolds(r: Ring, n: nat, s: seq<byte>)
    requires Ok(r) && n <= DataSize(r) && |s| == DataSize(r) - n
    ensures var after := Advanced(r, n);
      Ok(after) && DataSize(after) == DataSize(r) - n && (HoldsFrom(after, 0, s) ==> HoldsFrom(r, n, s))
  {
    var after := Advanced(r, n);
    if HoldsFrom(after, 0, s) {
      forall i | 0 <= i < |s| ensures s[i] == ByteAt(r, n + i) {
        assert s[i] == ByteAt(after, 0 + i);
      }
    }
  }

  /** What is held in one run is what is held in two. */
  lemma HeldTogether(r: Ring, all: seq<byte>, first: seq<byte>, second: seq<byte>)
    requires HoldsFrom(r, 0, all) && HoldsFrom(r, 0, first) && HoldsFrom(r, |first|, second)
    requires |all| == |first| + |second|
    ensures all == first + second
  {
    forall i | 0 <= i < |all| ensures all[i] == (first + second)[i] {
      assert all[i] == ByteAt(r, 0 + i);
      if i < |first| {
        assert first[i] == ByteAt(r, 0 + i);
      } else {
        assert second[i - |first|] == ByteAt(r, |first| + (i - |first|));
      }
    }
  }

  // ---------- the queue is first in, first out ----------

  lemma TakenIsOldest(r: Ring, count: nat)
    requires Ok(r)
    ensures var (taken, after) := Taken(r, count);
      && |taken| == Min(|Contents(r)|, count) && Ok(after) && after.bytes == r.bytes
      && Contents(r) == taken + Contents(after)
  {
    SizeIsLength(r);
    PiecesAreOldest(r, Min(DataSize(r), count));
  }

  lemma PiecesAreOldest(r: Ring, n: nat)
    requires Ok(r) && n <= DataSize(r)
    ensures var after := Advanced(r, n);
      |Pieces(r, n)| == n && Ok(after) && Contents(r) == Pieces(r, n) + Contents(after)
  {
    var after := Advanced(r, n);
    AdvancedOk(r, n);
    var all, taken, left := Contents(r), Pieces(r, n), Contents(after);
    ContentsAreHeld(r);
    PiecesAreHeld(r, n);
    ContentsAreHeld(after);
    AdvancedHolds(r, n, left);
    HeldTogether(r, all, taken, left);
  }

  lemma AdvancedOk(r: Ring, n: nat)
    requires Ok(r) && n <= DataSize(r)
    ensures Ok(Advanced(r, n)) && DataSize(Advanced(r, n)) == DataSize(r) - n
  {
  }

  lemma WrittenIsNewest(r: Ring, data: seq<byte>)
    requires Ok(r)
    ensures var (n, after) := Written(r, data);
      && n == Min(|r.bytes| - 1 - |Contents(r)|, |data|) && Ok(after) && |after.bytes| == |r.bytes|
      && Contents(after) == Contents(r) + data[..n]
  {
    SizeIsLength(r);
    StoredIsNewest(r, data[..Min(FreeSize(r), |data|)]);
  }

  lemma StoredIsNewest(r: Ring, data: seq<byte>)
    requires Ok(r) && |data| <= FreeSize(r)
    ensures var after := Stored(r, data);
      Ok(after) && |after.bytes| == |r.bytes| && Contents(after) == Contents(r) + data
  {
    var after := Stored(r, data);
    StoredOk(r, data);
    var all, before := Contents(after), Contents(r);
    ContentsAreHeld(r);
    ContentsAreHeld(after);
    StoredKeeps(r, data, before);
    StoredHolds(r, data);
    HeldTogether(after, all, before, data);
  }

  lemma StoredOk(r: Ring, data: seq<byte>)
    requires Ok(r) && |data| <= FreeSize(r)
    ensures var after := Stored(r, data);
      Ok(after) && |after.bytes| == |r.bytes| && after.read == r.read && DataSize(after) == DataSize(r) + |data|
  {
  }

  lemma StoredKeeps(r: Ring, data: seq<byte>, s: seq<byte>)
    requires Ok(r) && |data| <= FreeSize(r) && |s| == DataSize(r) && HoldsFrom(r, 0, s)
    ensures HoldsFrom(Stored(r, data), 0, s)
  {
    var after := Stored(r, data);
    StoredOk(r, data);
    forall i | 0 <= i < |s| ensures s[i] == ByteAt(after, 0 + i) {
      assert s[i] == ByteAt(r, 0 + i);
    }
  }

  lemma StoredHolds(r: Ring, data: seq<byte>)
    requires Ok(r) && |data| <= FreeSize(r)
    ensures HoldsFrom(Stored(r, data), DataSize(r), data)
  {
    var after := Stored(r, data);
    StoredOk(r, data);
    forall i | 0 <= i < |data| ensures data[i] == ByteAt(after, DataSize(r) + i) { }
  }

  lemma GrownKeepsContents(r: Ring, rest: seq<byte>)
    requires Ok(r) && |rest| >= 1 && DataSize(r) + |rest| <= LIMIT
    ensures Ok(Grown(r, rest)) && Contents(Grown(r, rest)) == Contents(r)
  {
    SizeIsLength(r);
    AllTaken(r);
    var all := Contents(r);
    assert (all + rest)[0..|all|] == all;
  }

  lemma AllTaken(r: Ring)
    requires Ok(r)
    ensures Taken(r, DataSize(r)).0 == Contents(r) && |Contents(r)| == DataSize(r)
  {
    SizeIsLength(r);
    PiecesAreOldest(r, DataSize(r));
    var left := Contents(Advanced(r, DataSize(r)));
    AdvancedOk(r, DataSize(r));
    SizeIsLength(Advanced(r, DataSize(r)));
    assert left == [];
  }

  // ---------- pieces copied one after the other ----------

  lemma CopiedPiece(before: seq<byte>, after: seq<byte>, at: nat, piece: seq<byte>)
    requires |after| == |before| && at + |piece| <= |before|
    requires forall k :: at <= k < at + |piece| ==> after[k] == piece[k - at]
    requires forall k :: 0 <= k < |before| && !(at <= k < at + |piece|) ==> after[k] == before[k]
    ensures after == Overwritten(before, at, piece)
  {
    var expected := Overwritten(before, at, piece);
    forall k | 0 <= k < |before| ensures after[k] == expected[k] {
      if at <= k < at + |piece| {
        assert after[k] == piece[k - at];
      }
    }
  }

  lemma TwoPieces(s: seq<byte>, a: seq<byte>, b: seq<byte>)
    requires |a| + |b| <= |s|
    ensures Overwritten(Overwritten(s, 0, a), |a|, b) == Overwritten(s, 0, a + b)
  {
  }

  // ---------- whole histories ----------

  datatype Call = Write(data: seq<byte>) | Read(count: nat) | Peek(count: nat) | Grow(rest: seq<byte>)

  /** A ring, all bytes it has accepted and all bytes it has delivered. */
  datatype History = History(ring: Ring, accepted: seq<byte>, delivered: seq<byte>)

  /** Growing supplies fresh bytes behind the data, at least as many as were free. */
  ghost predicate Enabled(h: History, c: Call) {
    Ok(h.ring) && (c.Grow? ==>
      |c.rest| > FreeSize(h.ring) && DataSize(h.ring) + |c.rest| <= LIMIT)
  }

  ghost function After(h: History, c: Call): History
    requires Enabled(h, c)
  {
    match c
    case Write(data) =>
      var (n, ring) := Written(h.ring, data);
      assert n <= |data| by { WrittenIsNewest(h.ring, data); }
      History(ring, h.accepted + data[..n], h.delivered)
    case Read(count) =>
      var (taken, ring) := Taken(h.ring, count);
      History(ring, h.accepted, h.delivered + taken)
    case Peek(count) => h
    case Grow(rest) => h.(ring := Grown(h.ring, rest))
  }

  ghost predicate IsRun(start: History, calls: seq<Call>, end: History)
    decreases |calls|
  {
    if calls == [] then end == start
    else Enabled(start, calls[0]) && IsRun(After(start, calls[0]), calls[1..], end)
  }

  ghost predicate InOrder(h: History) {
    Ok(h.ring) && h.accepted == h.delivered + Contents(h.ring)
  }

  lemma WriteKeepsOrder(h: History, data: seq<byte>)
    requires InOrder(h)
    ensures InOrder(After(h, Write(data)))
  {
    WrittenIsNewest(h.ring, data);
    Regroup(h.delivered, Contents(h.ring), data[..Written(h.ring, data).0]);
  }

  lemma ReadKeepsOrder(h: History, count: nat)
    requires InOrder(h)
    ensures InOrder(After(h, Read(count)))
  {
    TakenIsOldest(h.ring, count);
    var (taken, ring) := Taken(h.ring, count);
    Regroup(h.delivered, taken, Contents(ring));
  }

  lemma Regroup(a: seq<byte>, b: seq<byte>, c: seq<byte>)
    ensures (a + b) + c == a + (b + c)
  {
  }

  lemma CallKeepsOrder(h: History, c: Call)
    requires InOrder(h) && Enabled(h, c)
    ensures InOrder(After(h, c))
  {
    match c
    case Write(data) => WriteKeepsOrder(h, data);
    case Read(count) => ReadKeepsOrder(h, count);
    case Peek(_) =>
    case Grow(rest) => GrownKeepsContents(h.ring, rest);
  }

  /** Whatever is called in whatever order, the bytes delivered and those still queued are the
      bytes accepted, in order. */
  lemma {:induction false} FirstInFirstOut(start: History, calls: seq<Call>, end: History)
    requires InOrder(start) && IsRun(start, calls, end)
    ensures InOrder(end)
    decreases |calls|
  {
    if calls != [] {
      CallKeepsOrder(start, calls[0]);
      FirstInFirstOut(After(start, calls[0]), calls[1..], end);
    }
  }

  class CUT_FIFO_Queue {
    const cbGrow: nat
    var buffer: array<byte>
    var readPointer: nat
    var writePointer: nat

    ghost predicate Valid()
      reads this, buffer
    {
      Ok(View())
    }

    function View(): Ring
      reads this, buffer
    {
      Ring(buffer[..], readPointer, writePointer)
    }

    constructor (size: nat, growSize: nat)
      requires size + 1 <= LIMIT
      ensures Valid() && Contents(View()) == [] && FreeSize(View()) == size
      ensures fresh(buffer) && cbGrow == growSize
    {
      cbGrow := growSize;
      buffer := new byte[size + 1];
      readPointer, writePointer := 0, 0;
    }

    function GetDataSize(): (size: int)
      requires Valid()
      reads this, buffer
      ensures size == |Contents(View())|
    {
      SizeIsLength(View());
      if readPointer == writePointer then 0
      else if readPointer < writePointer then writePointer - readPointer
      else writePointer + buffer.Length - readPointer
    }

    function GetFreeSize(): (size: int)
      requires Valid()
      reads this, buffer
      ensures 0 <= size == buffer.Length - 1 - |Contents(View())|
    {
      SizeIsLength(View());
      buffer.Length - GetDataSize() - 1
    }

    /** memcpy between buffers that do not overlap. */
    static method Copy(dst: array<byte>, di: nat, src: array<byte>, si: nat, n: nat)
      requires dst != src && di + n <= dst.Length && si + n <= src.Length
      modifies dst
      ensures dst[..] == Overwritten(old(dst[..]), di, src[..][si..si + n])
    {
      for i := 0 to n
        invariant forall k :: di <= k < di + i ==> dst[k] == src[k - di + si]
        invariant forall k :: 0 <= k < dst.Length && !(di <= k < di + i) ==> dst[k] == old(dst[k])
        invariant src[..] == old(src[..])
      {
        dst[di + i] := src[si + i];
      }
      CopiedPiece(old(dst[..]), dst[..], di, src[..][si..si + n]);
    }

    method CopyAround(dst: array<byte>, from: nat, atEnd: nat, atStart: nat)
      requires dst != buffer && from + atEnd <= buffer.Length && atStart <= buffer.Length
      requires atEnd + atStart <= dst.Length
      modifies dst
      ensures buffer[..] == old(buffer[..])
      ensures dst[..] == Overwritten(old(dst[..]), 0, buffer[..][from..from + atEnd] + buffer[..][0..atStart])
    {
      Copy(dst, 0, buffer, from, atEnd);
      Copy(dst, atEnd, buffer, 0, atStart);
      TwoPieces(old(dst[..]), buffer[..][from..from + atEnd], buffer[..][0..atStart]);
    }

    /** Copies the oldest bytes in one piece or two, and tells where the next one lies. */
    method CopyOut(dst: array<byte>, count: nat) returns (n: nat, next: nat)
      requires Valid() && dst != buffer && Min(|Contents(View())|, count) <= dst.Length && count <= INT_MAX
      modifies dst
      ensures View() == old(View())
      ensures n == |Taken(View(), count).0| && next == Taken(View(), count).1.read
      ensures dst[..] == Overwritten(old(dst[..]), 0, Taken(View(), count).0)
    {
      ghost var ring := View();
      SizeIsLength(ring);
      next := readPointer;
      n := Min(GetDataSize(), count);
      if next + n > buffer.Length {
        var atEnd := buffer.Length - next;
        CopyAround(dst, next, atEnd, n - atEnd);
        next := n - atEnd;
      } else {
        Copy(dst, 0, buffer, next, n);
        next := next + n;
      }
      assert View() == ring;
    }

    method Read(dst: array<byte>, count: nat) returns (n: nat)
      requires Valid() && dst != buffer && Min(|Contents(View())|, count) <= dst.Length && count <= INT_MAX
      modifies this`readPointer, dst
      ensures Valid() && n == Min(old(|Contents(View())|), count)
      ensures View() == Taken(old(View()), count).1
      ensures dst[..] == Overwritten(old(dst[..]), 0, old(Contents(View()))[..n])
      ensures Contents(View()) == old(Contents(View()))[n..]
    {
      TakenIsOldest(View(), count);
      ghost var taken := Taken(View(), count).0;
      assert taken == Contents(View())[..|taken|];
      n, readPointer := CopyOut(dst, count);
    }

    method Peek(dst: array<byte>, count: nat) returns (n: nat)
      requires Valid() && dst != buffer && Min(|Contents(View())|, count) <= dst.Length && count <= INT_MAX
      modifies dst
      ensures Valid() && n == Min(|Contents(View())|, count)
      ensures View() == old(View())
      ensures dst[..] == Overwritten(old(dst[..]), 0, Contents(View())[..n])
    {
      TakenIsOldest(View(), count);
      ghost var taken := Taken(View(), count).0;
      assert taken == Contents(View())[..|taken|];
      var next;
      n, next := CopyOut(dst, count);
    }

    method CopyIn(src: array<byte>, n: nat)
      requires Valid() && src != buffer && n <= src.Length && n <= FreeSize(View())
      modifies this`writePointer, buffer
      ensures buffer == old(buffer) && View() == Stored(old(View()), src[..][..n])
    {
      ghost var data := src[..][..n];
      SizeIsLength(View());
      if writePointer + n > buffer.Length {
        var atEnd := buffer.Length - writePointer;
        assert data[..atEnd] == src[..][0..0 + atEnd];
        Copy(buffer, writePointer, src, 0, atEnd);
        assert data[atEnd..] == src[..][atEnd..atEnd + (n - atEnd)];
        Copy(buffer, 0, src, atEnd, n - atEnd);
        writePointer := n - atEnd;
      } else {
        assert data == src[..][0..0 + n];
        Copy(buffer, writePointer, src, 0, n);
        writePointer := writePointer + n;
      }
    }

    method Write(src: array<byte>, count: nat) returns (n: nat)
      requires Valid() && src != buffer && count <= src.Length && count <= INT_MAX
      modifies this`writePointer, buffer
      ensures Valid() && buffer == old(buffer) && buffer.Length == old(buffer.Length)
      ensures n == Min(buffer.Length - 1 - old(|Contents(View())|), count)
      ensures Contents(View()) == old(Contents(View())) + src[..][..n]
    {
      SizeIsLength(View());
      n := Min(GetFreeSize(), count);
      StoredIsNewest(View(), src[..][..n]);
      CopyIn(src, n);
    }

    method Grow() returns (ok: bool)
      requires Valid() && buffer.Length + cbGrow <= LIMIT
      modifies this
      ensures Valid() && ok == (cbGrow > 0)
      ensures Contents(View()) == old(Contents(View()))
      ensures if ok then fresh(buffer) && buffer.Length == old(buffer.Length) + cbGrow && readPointer == 0
              else View() == old(View()) && buffer == old(buffer)
    {
      if cbGrow == 0 {
        return false;
      }
      var grown := new byte[buffer.Length + cbGrow];
      var size := GetDataSize();
      var peeked := Peek(grown, size);
      buffer := grown;
      readPointer, writePointer := 0, size;
      ok := true;
    }
  }
}
