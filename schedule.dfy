/**
 * The overwrite schedule of `shred`: seven passes, each stepping through the
 * offsets `0, 4096, 8192, ...` below the length `L` read once when the file
 * is opened, with a clamped chunk size `min(4096, L - offset)` per offset.
 *
 * Besides the offsets and sizes, this module defines the exact sequence of
 * file operations a complete run performs (`ShredLog`) and, as an
 * independent reference, what any sequence of file operations does to the
 * file's length and cursor (`Replay`).
 */
module Schedule {
  import opened Storage

  const OverwritePasses: nat := 7
  const BlockSize: nat := 4096

  /** The values produced by Rust's `(start..end).step_by(step)`, in order. */
  function StepBy(start: nat, end: nat, step: nat): (r: seq<nat>)
    requires step > 0
    ensures forall i :: 0 <= i < |r| ==> start <= r[i] < end
    decreases end - start
  {
    if start >= end then [] else [start] + StepBy(start + step, end, step)
  }

  /** The chunk offsets of one pass over a file of snapshotted length `len`. */
  function ChunkOffsets(len: nat): (r: seq<nat>)
    ensures forall i :: 0 <= i < |r| ==> r[i] < len
  {
    StepBy(0, len, BlockSize)
  }

  /** `ceil(len / 4096)`. */
  function NumChunks(len: nat): (r: nat)
    ensures r == 0 <==> len == 0
    ensures r <= 1 <==> len <= BlockSize
  {
    (len + BlockSize - 1) / BlockSize
  }

  /**
   * The first value `(start..end).step_by(4096)` does not produce: `start`
   * when the range is empty, otherwise the last offset plus 4096.
   */
  function StepEnd(start: nat, end: nat): (r: nat)
    ensures r >= start && r >= end && r % BlockSize == start % BlockSize
    ensures start < end ==> r < end + BlockSize
    ensures start >= end ==> r == start
    decreases end - start
  {
    if start >= end then start else StepEnd(start + BlockSize, end)
  }

  /**
   * How far one pass writes: every chunk writes the whole 4096-byte buffer,
   * so the pass ends at the offset after the last chunk, `len` rounded up
   * to a multiple of 4096.
   */
  function PassLength(len: nat): (r: nat)
    ensures len <= r < len + BlockSize && r % BlockSize == 0
    ensures len == 0 ==> r == 0
    ensures 0 < len <= BlockSize ==> r == BlockSize
    ensures len > BlockSize ==> r > BlockSize
  {
    StepEnd(0, len)
  }

  /** `min(BLOCK_SIZE, file_length - chunk)` for a chunk offset below the length. */
  function ChunkSize(len: nat, offset: nat): (r: nat)
    requires offset < len
    ensures 1 <= r <= BlockSize && r <= len - offset
    ensures r == BlockSize || r == len - offset
  {
    if BlockSize <= len - offset then BlockSize else len - offset
  }

  /** The chunk sizes for the offsets `StepBy(start, len, BlockSize)`. */
  function SizesFrom(start: nat, len: nat): seq<nat>
    decreases len - start
  {
    if start >= len then [] else [ChunkSize(len, start)] + SizesFrom(start + BlockSize, len)
  }

  function ChunkSizes(len: nat): seq<nat>
  {
    SizesFrom(0, len)
  }

  function Sum(s: seq<nat>): nat
  {
    if s == [] then 0 else s[0] + Sum(s[1..])
  }

  // ---------------------------------------------------------------------
  // Offsets and sizes

  lemma {:induction false} StepByBlocks(start: nat, len: nat)
    ensures var r := StepBy(start, len, BlockSize);
      && (forall i :: 0 <= i < |r| ==> r[i] == start + i * BlockSize)
      && (start < len ==> start + (|r| - 1) * BlockSize < len <= start + |r| * BlockSize)
      && (start >= len ==> r == [])
    decreases len - start
  {
    if start < len {
      StepByBlocks(start + BlockSize, len);
    }
  }

  /**
   * The offsets of a pass are exactly the multiples of 4096 below `len`, in
   * increasing order, and there are `ceil(len / 4096)` of them.
   */
  lemma ChunkOffsetsExact(len: nat)
    ensures |ChunkOffsets(len)| == NumChunks(len)
    ensures forall i :: 0 <= i < |ChunkOffsets(len)| ==> ChunkOffsets(len)[i] == i * BlockSize
    ensures forall x: nat :: x in ChunkOffsets(len) <==> x % BlockSize == 0 && x < len
    ensures forall i, j :: 0 <= i < j < |ChunkOffsets(len)| ==> ChunkOffsets(len)[i] < ChunkOffsets(len)[j]
  {
    var r := ChunkOffsets(len);
    StepByBlocks(0, len);
    forall x: nat | x % BlockSize == 0 && x < len
      ensures x in r
    {
      assert r[x / BlockSize] == x;
    }
  }

  lemma {:induction false} SizesFromMatch(start: nat, len: nat)
    ensures |SizesFrom(start, len)| == |StepBy(start, len, BlockSize)|
    ensures forall i :: 0 <= i < |SizesFrom(start, len)| ==>
      SizesFrom(start, len)[i] == ChunkSize(len, StepBy(start, len, BlockSize)[i])
    ensures start <= len ==> Sum(SizesFrom(start, len)) == len - start
    decreases len - start
  {
    if start < len {
      SizesFromMatch(start + BlockSize, len);
    }
  }

  /**
   * Every chunk size lies in 1..4096, all chunks but the last are full, and
   * the sizes of one pass add up to exactly the snapshotted length.
   */
  lemma ChunkSizesExact(len: nat)
    ensures |ChunkSizes(len)| == |ChunkOffsets(len)| == NumChunks(len)
    ensures forall i :: 0 <= i < |ChunkSizes(len)| ==>
      ChunkSizes(len)[i] == ChunkSize(len, ChunkOffsets(len)[i])
    ensures forall i :: 0 <= i < |ChunkSizes(len)| ==> 1 <= ChunkSizes(len)[i] <= BlockSize
    ensures forall i :: 0 <= i < |ChunkSizes(len)| - 1 ==> ChunkSizes(len)[i] == BlockSize
    ensures Sum(ChunkSizes(len)) == len
  {
    SizesFromMatch(0, len);
    ChunkOffsetsExact(len);
  }

  /**
   * The file length one pass leaves behind is `len` rounded up to a multiple
   * of 4096: it equals `len` exactly when `len` is already a multiple.
   */
  lemma PassLengthExact(len: nat)
    ensures PassLength(len) == len <==> len % BlockSize == 0
    ensures PassLength(len) == NumChunks(len) * BlockSize
  {
  }

  lemma PassLengthExamples()
    ensures PassLength(4097) == 8192
    ensures PassLength(4096) == 4096
    ensures PassLength(1) == 4096
  {
  }

  // ---------------------------------------------------------------------
  // The operations a run performs

  function WritesAt(offsets: seq<nat>): seq<IoOp>
  {
    seq(|offsets|, i requires 0 <= i < |offsets| => Write(offsets[i], BlockSize))
  }

  /** One pass: rewind, one full-buffer write per chunk offset, sync. */
  function PassLog(len: nat): seq<IoOp>
  {
    [Rewind] + WritesAt(ChunkOffsets(len)) + [SyncData]
  }

  function PassesLog(len: nat, n: nat): seq<IoOp>
  {
    if n == 0 then [] else PassesLog(len, n - 1) + PassLog(len)
  }

  /** Everything a successful run does to the open file, in order. */
  function ShredLog(len: nat): seq<IoOp>
  {
    [SeekEnd] + PassesLog(len, OverwritePasses) + [Rewind, SetLen(0), SyncData]
  }

  function WriteCount(ops: seq<IoOp>): nat
  {
    if ops == [] then 0 else (if ops[0].Write? then 1 else 0) + WriteCount(ops[1..])
  }

  lemma {:induction false} WriteCountAppend(a: seq<IoOp>, b: seq<IoOp>)
    ensures WriteCount(a + b) == WriteCount(a) + WriteCount(b)
    decreases |a|
  {
    if a != [] {
      assert (a + b)[0] == a[0] && (a + b)[1..] == a[1..] + b;
      WriteCountAppend(a[1..], b);
    } else {
      assert a + b == b;
    }
  }

  lemma {:induction false} WriteCountWrites(offsets: seq<nat>)
    ensures WriteCount(WritesAt(offsets)) == |offsets|
    decreases |offsets|
  {
    if offsets != [] {
      assert WritesAt(offsets)[1..] == WritesAt(offsets[1..]);
      WriteCountWrites(offsets[1..]);
    }
  }

  /** A well-aligned write: full buffer, at a chunk offset below `len`. */
  ghost predicate AlignedWrites(ops: seq<IoOp>, len: nat)
  {
    forall i :: 0 <= i < |ops| && ops[i].Write? ==>
      ops[i].at % BlockSize == 0 && ops[i].at < len && ops[i].count == BlockSize
  }

  lemma PassLogCounts(len: nat)
    ensures multiset(PassLog(len))[Rewind] == 1
    ensures multiset(PassLog(len))[SyncData] == 1
    ensures WriteCount(PassLog(len)) == NumChunks(len)
  {
    var w := WritesAt(ChunkOffsets(len));
    ChunkOffsetsExact(len);
    assert Rewind !in multiset(w) && SyncData !in multiset(w) by {
      forall op | op in w ensures op.Write? {
        var i :| 0 <= i < |w| && w[i] == op;
      }
    }
    assert multiset(PassLog(len)) == multiset([Rewind]) + multiset(w) + multiset([SyncData]);
    WriteCountAppend([Rewind] + w, [SyncData]);
    WriteCountAppend([Rewind], w);
    WriteCountWrites(ChunkOffsets(len));
  }

  lemma PassLogAligned(len: nat)
    ensures AlignedWrites(PassLog(len), len)
  {
    var w := WritesAt(ChunkOffsets(len));
    forall i | 0 <= i < |PassLog(len)| && PassLog(len)[i].Write?
      ensures PassLog(len)[i].at % BlockSize == 0 && PassLog(len)[i].at < len
    {
      assert PassLog(len)[i] == w[i - 1];
      StepByBlocks(0, len);
    }
  }

  lemma MulStep(n: nat, m: nat)
    requires n > 0
    ensures (n - 1) * m + m == n * m
  {
  }

  lemma {:induction false} PassesLogCounts(len: nat, n: nat)
    ensures multiset(PassesLog(len, n))[Rewind] == n
    ensures multiset(PassesLog(len, n))[SyncData] == n
  {
    if n > 0 {
      var a, b := PassesLog(len, n - 1), PassLog(len);
      PassesLogCounts(len, n - 1);
      PassLogCounts(len);
      CountAppend(a, b, Rewind);
      CountAppend(a, b, SyncData);
    } else {
      assert PassesLog(len, n) == [];
    }
  }

  lemma {:induction false} PassesLogWrites(len: nat, n: nat)
    ensures WriteCount(PassesLog(len, n)) == n * NumChunks(len)
  {
    if n > 0 {
      var a, b := PassesLog(len, n - 1), PassLog(len);
      PassesLogWrites(len, n - 1);
      PassLogCounts(len);
      WriteCountAppend(a, b);
      MulStep(n, NumChunks(len));
    }
  }

  lemma CountAppend(a: seq<IoOp>, b: seq<IoOp>, op: IoOp)
    ensures multiset(a + b)[op] == multiset(a)[op] + multiset(b)[op]
  {
    assert multiset(a + b) == multiset(a) + multiset(b);
  }

  lemma {:induction false} PassesLogAligned(len: nat, n: nat)
    ensures AlignedWrites(PassesLog(len, n), len)
  {
    if n > 0 {
      PassesLogAligned(len, n - 1);
      PassLogAligned(len);
      var a: seq<IoOp>, b: seq<IoOp> := PassesLog(len, n - 1), PassLog(len);
      assert PassesLog(len, n) == a + b;
      forall i | 0 <= i < |a + b| && (a + b)[i].Write?
        ensures (a + b)[i].at % BlockSize == 0 && (a + b)[i].at < len && (a + b)[i].count == BlockSize
      {
        if i < |a| {
          assert (a + b)[i] == a[i];
        } else {
          assert (a + b)[i] == b[i - |a|];
        }
      }
    }
  }

  lemma ShredLogCounts(len: nat)
    ensures multiset(ShredLog(len))[Rewind] == OverwritePasses + 1
    ensures multiset(ShredLog(len))[SyncData] == OverwritePasses + 1
    ensures WriteCount(ShredLog(len)) == OverwritePasses * NumChunks(len)
  {
    var p := PassesLog(len, OverwritePasses);
    var tail: seq<IoOp> := [Rewind, SetLen(0), SyncData];
    PassesLogCounts(len, OverwritePasses);
    PassesLogWrites(len, OverwritePasses);
    assert multiset(ShredLog(len)) == multiset([SeekEnd]) + multiset(p) + multiset(tail);
    WriteCountAppend([SeekEnd] + p, tail);
    WriteCountAppend([SeekEnd], p);
    assert WriteCount(tail) == 0;
  }

  lemma ShredLogAligned(len: nat)
    ensures AlignedWrites(ShredLog(len), len)
  {
    var p := PassesLog(len, OverwritePasses);
    PassesLogAligned(len, OverwritePasses);
    forall i | 0 <= i < |ShredLog(len)| && ShredLog(len)[i].Write?
      ensures ShredLog(len)[i].at % BlockSize == 0 && ShredLog(len)[i].at < len
      ensures ShredLog(len)[i].count == BlockSize
    {
      assert 1 <= i < 1 + |p|;
      assert ShredLog(len)[i] == p[i - 1];
    }
  }

  /**
   * A complete run rewinds and syncs once per pass and once more for the
   * truncation, and writes one full buffer per chunk in each of the seven
   * passes, always at a multiple of 4096 below the snapshotted length. An
   * empty file therefore sees no write at all.
   */
  lemma ShredLogShape(len: nat)
    ensures multiset(ShredLog(len))[Rewind] == OverwritePasses + 1
    ensures multiset(ShredLog(len))[SyncData] == OverwritePasses + 1
    ensures WriteCount(ShredLog(len)) == OverwritePasses * NumChunks(len)
    ensures AlignedWrites(ShredLog(len), len)
    ensures len == 0 ==> WriteCount(ShredLog(len)) == 0
  {
    ShredLogCounts(len);
    ShredLogAligned(len);
  }

  // ---------------------------------------------------------------------
  // What the operations do to length and cursor

  /** The (length, cursor) of a file after one completed operation. */
  function Effect(len: nat, cursor: nat, op: IoOp): (nat, nat)
  {
    match op
    case SeekEnd => (len, len)
    case Rewind => (len, 0)
    case Write(_, count) => (Max(len, cursor + count), cursor + count)
    case SyncData => (len, cursor)
    case SetLen(size) => (size, cursor)
  }

  function Replay(len: nat, cursor: nat, ops: seq<IoOp>): (nat, nat)
    decreases |ops|
  {
    if ops == [] then (len, cursor)
    else
      var next := Effect(len, cursor, ops[0]);
      Replay(next.0, next.1, ops[1..])
  }

  lemma {:induction false} ReplayAppend(len: nat, cursor: nat, a: seq<IoOp>, b: seq<IoOp>)
    ensures Replay(len, cursor, a + b) ==
      var mid := Replay(len, cursor, a); Replay(mid.0, mid.1, b)
    decreases |a|
  {
    if a != [] {
      assert (a + b)[0] == a[0] && (a + b)[1..] == a[1..] + b;
      var next := Effect(len, cursor, a[0]);
      ReplayAppend(next.0, next.1, a[1..], b);
    } else {
      assert a + b == b;
    }
  }

  lemma {:induction false} ReplayWrites(len: nat, cursor: nat, offsets: seq<nat>)
    ensures Replay(len, cursor, WritesAt(offsets)) ==
      if offsets == [] then (len, cursor)
      else (Max(len, cursor + |offsets| * BlockSize), cursor + |offsets| * BlockSize)
    decreases |offsets|
  {
    if offsets != [] {
      assert WritesAt(offsets)[1..] == WritesAt(offsets[1..]);
      ReplayWrites(Max(len, cursor + BlockSize), cursor + BlockSize, offsets[1..]);
    }
  }

  /**
   * Replaying one pass from the start of a file of length `cur` leaves it
   * `Max(cur, PassLength(len))` long with the cursor at `PassLength(len)`:
   * the pass grows a file whose snapshotted length is not a multiple of 4096.
   */
  lemma PassReplay(len: nat, cur: nat, cursor: nat)
    ensures Replay(cur, cursor, PassLog(len)) == (Max(cur, PassLength(len)), PassLength(len))
  {
    var w := WritesAt(ChunkOffsets(len));
    ChunkOffsetsExact(len);
    ReplayAppend(cur, cursor, [Rewind] + w, [SyncData]);
    ReplayAppend(cur, cursor, [Rewind], w);
    ReplayWrites(cur, 0, ChunkOffsets(len));
  }

  /** The file length after `n` complete passes over a file of snapshotted length `len`. */
  function LengthAfterPasses(len: nat, n: nat): nat
  {
    if n == 0 then len else PassLength(len)
  }

  lemma {:induction false} PassesReplay(len: nat, n: nat)
    ensures Replay(len, len, PassesLog(len, n)) ==
      (LengthAfterPasses(len, n), if n == 0 then len else PassLength(len))
  {
    
    if n > 0 {
      PassesReplay(len, n - 1);
      var mid := Replay(len, len, PassesLog(len, n - 1));
      ReplayAppend(len, len, PassesLog(len, n - 1), PassLog(len));
      PassReplay(len, mid.0, mid.1);
    }
  }

  /**
   * Replayed from a freshly opened handle (cursor 0) on a file of length
   * `len`, a complete run ends with an empty file and the cursor at 0, and
   * just before the truncation the file is `PassLength(len)` long.
   */
  lemma ShredLogReplay(len: nat)
    ensures Replay(len, 0, [SeekEnd] + PassesLog(len, OverwritePasses)) == (PassLength(len), PassLength(len))
    ensures Replay(len, 0, ShredLog(len)) == (0, 0)
  {
    var p := PassesLog(len, OverwritePasses);
    ReplayAppend(len, 0, [SeekEnd], p);
    PassesReplay(len, OverwritePasses);
    ReplayAppend(len, 0, [SeekEnd] + p, [Rewind, SetLen(0), SyncData]);
  }
}
