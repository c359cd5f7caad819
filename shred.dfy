/**
 * The single-file shredding procedure `shred(file_path)`: open the file,
 * read its length once, overwrite it in seven passes of 4096-byte chunks
 * from one reused buffer, rewind and truncate it to zero, rename it to a
 * temporary name in the same directory and remove it.
 *
 * Every `?` in the source is an early return: the run ends with `Failed`
 * and the phase that failed, and whatever the earlier steps did stays done.
 * The two panics (`.expect` on the filler, `.unwrap` on the parent path)
 * end the run with `Panicked`, also leaving earlier steps in place.
 */
module Shredding {
  import opened Storage
  import opened Schedule
  import opened RandomFiller
  import opened Volume

  datatype Phase =
    | OpenFile
    | SeekLength
    | RewindPass(pass: nat)
    | WriteChunk(pass: nat, offset: nat)
    | SyncPass(pass: nat)
    | RewindTruncate
    | Truncate
    | SyncTruncate
    | RenameToTemp
    | RemoveTemp

  datatype Panic =
    | FillFailed(pass: nat, offset: nat)
    | NoParent

  datatype Outcome =
    | Shredded
    | Failed(phase: Phase)
    | Panicked(panic: Panic)

  /** How a part of the run ends: done, or the whole run stops with an outcome. */
  datatype Progress = Done | Stopped(outcome: Outcome)

  function Take(s: seq<nat>, n: nat): (r: seq<nat>)
    ensures |r| <= |s| && r == s[..|r|]
  {
    if n <= |s| then s[..n] else s
  }

  /** Whether the run stopped inside an overwrite pass. */
  predicate StopsInPass(o: Outcome)
  {
    || (o.Failed? && (o.phase.RewindPass? || o.phase.WriteChunk? || o.phase.SyncPass?))
    || (o.Panicked? && o.panic.FillFailed?)
  }

  function PassOf(o: Outcome): nat
    requires StopsInPass(o)
  {
    if o.Failed? then o.phase.pass else o.panic.pass
  }

  /** Whether the run stopped at a chunk: a failed write or a failed fill. */
  predicate StopsAtChunk(o: Outcome)
  {
    (o.Failed? && o.phase.WriteChunk?) || (o.Panicked? && o.panic.FillFailed?)
  }

  function OffsetOf(o: Outcome): nat
    requires StopsAtChunk(o)
  {
    if o.Failed? then o.phase.offset else o.panic.offset
  }

  /**
   * Whether `o` names a point the run can really stop at on a file of
   * snapshotted length `len`: one of the seven passes, and a chunk offset.
   */
  predicate Reachable(len: nat, o: Outcome)
  {
    && (StopsInPass(o) ==> PassOf(o) < OverwritePasses)
    && (StopsAtChunk(o) ==> OffsetOf(o) % BlockSize == 0 && OffsetOf(o) < len)
  }

  /** The file operations completed in the pass the run stopped in. */
  function PassOps(len: nat, o: Outcome): seq<IoOp>
  {
    if StopsAtChunk(o) then [Rewind] + WritesAt(Take(ChunkOffsets(len), OffsetOf(o) / BlockSize))
    else if o.Failed? && o.phase.SyncPass? then [Rewind] + WritesAt(ChunkOffsets(len))
    else []
  }

  /** The file length when the run stops with `o` in a pass that began at length `start`. */
  function PassStopLength(start: nat, len: nat, o: Outcome): nat
  {
    if StopsAtChunk(o) then Max(start, OffsetOf(o))
    else if o.Failed? && o.phase.SyncPass? then Max(start, PassLength(len))
    else start
  }

  /** The truncation steps, each preceded by all seven passes. */
  function TruncationOps(o: Outcome): seq<IoOp>
  {
    if o == Failed(RewindTruncate) then []
    else if o == Failed(Truncate) then [Rewind]
    else if o == Failed(SyncTruncate) then [Rewind, SetLen(0)]
    else [Rewind, SetLen(0), SyncData]
  }

  /** The file operations completed when a run on a file of length `len` ends with `o`. */
  function CompletedOps(len: nat, o: Outcome): seq<IoOp>
  {
    if o == Failed(OpenFile) || o == Failed(SeekLength) then []
    else if StopsInPass(o) then [SeekEnd] + PassesLog(len, PassOf(o)) + PassOps(len, o)
    else [SeekEnd] + PassesLog(len, OverwritePasses) + TruncationOps(o)
  }

  /** The file length when a run on a file of length `len` ends with `o`. */
  function LengthAt(len: nat, o: Outcome): nat
  {
    if o == Failed(OpenFile) || o == Failed(SeekLength) then len
    else if StopsInPass(o) then PassStopLength(LengthAfterPasses(len, PassOf(o)), len, o)
    else if o == Failed(RewindTruncate) || o == Failed(Truncate) then PassLength(len)
    else 0
  }

  // ---------------------------------------------------------------------
  // Completed steps are a prefix of the full run

  lemma PrefixConcat(a: seq<IoOp>, b: seq<IoOp>, c: seq<IoOp>)
    requires b <= c
    ensures a + b <= a + c
  {
    assert (a + c)[..|a + b|] == a + c[..|b|];
  }

  lemma PrefixExtend(a: seq<IoOp>, b: seq<IoOp>, c: seq<IoOp>)
    requires a <= b
    ensures a <= b + c
  {
    assert (b + c)[..|a|] == b[..|a|];
  }

  lemma Regroup(a: seq<IoOp>, b: seq<IoOp>, c: seq<IoOp>, d: seq<IoOp>)
    ensures a + b + c + d == a + (b + c + d)
  {
  }

  lemma Regroup3(a: seq<IoOp>, b: seq<IoOp>, c: seq<IoOp>)
    ensures a + b + c == a + (b + c)
  {
  }

  lemma {:induction false} PassesLogPrefix(len: nat, p: nat, q: nat)
    requires p <= q
    ensures PassesLog(len, p) <= PassesLog(len, q)
    decreases q
  {
    if p < q {
      PassesLogPrefix(len, p, q - 1);
      PrefixExtend(PassesLog(len, p), PassesLog(len, q - 1), PassLog(len));
    }
  }

  lemma PassOpsPrefix(len: nat, o: Outcome)
    requires StopsInPass(o) && Reachable(len, o)
    ensures PassOps(len, o) <= PassLog(len)
  {
  }

  lemma PrefixTrans(a: seq<IoOp>, b: seq<IoOp>, c: seq<IoOp>)
    requires a <= b && b <= c
    ensures a <= c
  {
    assert c[..|a|] == c[..|b|][..|a|];
  }

  /** The steps of a run that stopped in a pass are a prefix of the seven passes. */
  lemma PassStopPrefix(len: nat, o: Outcome)
    requires StopsInPass(o) && Reachable(len, o)
    ensures CompletedOps(len, o) <= [SeekEnd] + PassesLog(len, OverwritePasses)
  {
    var p := PassOf(o);
    var done := PassesLog(len, p);
    var ops := PassOps(len, o);
    PassOpsPrefix(len, o);
    PrefixConcat(done, ops, PassLog(len));
    PassesLogPrefix(len, p + 1, OverwritePasses);
    PrefixTrans(done + ops, PassesLog(len, p + 1), PassesLog(len, OverwritePasses));
    PrefixConcat([SeekEnd], done + ops, PassesLog(len, OverwritePasses));
    Regroup3([SeekEnd], done, ops);
  }

  /**
   * Whatever way a run ends, the file operations it completed are the first
   * steps of the complete run, in order, and a successful run completed all
   * of them: nothing is undone and nothing is done out of order.
   */
  lemma CompletedOpsArePrefix(len: nat, o: Outcome)
    requires Reachable(len, o)
    ensures CompletedOps(len, o) <= ShredLog(len)
    ensures o == Shredded ==> CompletedOps(len, o) == ShredLog(len)
  {
    var head := [SeekEnd] + PassesLog(len, OverwritePasses);
    var tail: seq<IoOp> := [Rewind, SetLen(0), SyncData];
    if o == Failed(OpenFile) || o == Failed(SeekLength) {
    } else if StopsInPass(o) {
      PassStopPrefix(len, o);
      PrefixExtend(CompletedOps(len, o), head, tail);
    } else {
      assert TruncationOps(o) <= tail;
      PrefixConcat(head, TruncationOps(o), tail);
    }
  }

  /**
   * `LengthAt` agrees with replaying the completed operations from a freshly
   * opened handle: the closed-form lengths follow from the effect of each
   * operation alone.
   */
  lemma LengthAtByReplay(len: nat, o: Outcome)
    requires Reachable(len, o)
    ensures Replay(len, 0, CompletedOps(len, o)).0 == LengthAt(len, o)
  {
    if o == Failed(OpenFile) || o == Failed(SeekLength) {
    } else if StopsInPass(o) {
      var p := PassOf(o);
      var head := [SeekEnd] + PassesLog(len, p);
      ReplayAppend(len, 0, [SeekEnd], PassesLog(len, p));
      PassesReplay(len, p);
      ReplayAppend(len, 0, head, PassOps(len, o));
      var mid := Replay(len, 0, head);
      assert mid.0 == LengthAfterPasses(len, p);
      PassOpsReplay(mid.0, mid.1, len, o);
    } else {
      var head := [SeekEnd] + PassesLog(len, OverwritePasses);
      ShredLogReplay(len);
      ReplayAppend(len, 0, head, TruncationOps(o));
      TruncationReplay(PassLength(len), PassLength(len), o);
    }
  }

  /** Replaying the steps of the pass the run stopped in gives `PassStopLength`. */
  lemma PassOpsReplay(size: nat, cursor: nat, len: nat, o: Outcome)
    requires StopsInPass(o) && Reachable(len, o)
    ensures Replay(size, cursor, PassOps(len, o)).0 == PassStopLength(size, len, o)
  {
    ChunkOffsetsExact(len);
    if StopsAtChunk(o) {
      var t := Take(ChunkOffsets(len), OffsetOf(o) / BlockSize);
      assert |t| * BlockSize == OffsetOf(o);
      ReplayAppend(size, cursor, [Rewind], WritesAt(t));
      ReplayWrites(size, 0, t);
    } else if o.Failed? && o.phase.SyncPass? {
      var w := WritesAt(ChunkOffsets(len));
      ReplayAppend(size, cursor, [Rewind] + w, [SyncData]);
      ReplayAppend(size, cursor, [Rewind], w);
      ReplayWrites(size, 0, ChunkOffsets(len));
      PassLengthExact(len);
    }
  }

  lemma TruncationReplay(size: nat, cursor: nat, o: Outcome)
    ensures Replay(size, cursor, TruncationOps(o)).0 ==
      if o == Failed(RewindTruncate) || o == Failed(Truncate) then size else 0
  {
    var sync: seq<IoOp> := [SyncData];
    var cut: seq<IoOp> := [SetLen(0)] + sync;
    assert sync[1..] == [] && Replay(0, 0, sync) == (0, 0);
    assert cut[1..] == sync && Replay(size, 0, cut) == (0, 0);
    assert [Rewind][1..] == [] && ([Rewind] + cut)[1..] == cut;
    assert [Rewind, SetLen(0)][1..] == [SetLen(0)] && [SetLen(0)][1..] == [];
  }


  // ---------------------------------------------------------------------
  // The procedure

  /**
   * The state of one pass after the chunks at `offsets` were written, as
   * values: `data`, `cursor`, `log` and `buf` are the file and buffer now,
   * `d0`, `log0` and `buf0` what they were right after the rewind.
   */
  ghost predicate ChunkProgress(data: seq<byte>, cursor: nat, log: seq<IoOp>, buf: seq<byte>,
                                d0: seq<byte>, log0: seq<IoOp>, buf0: seq<byte>,
                                offsets: seq<nat>, sizes: seq<nat>, chunk: nat, len: nat)
  {
    && |buf| == |buf0| == BlockSize
    && offsets + StepBy(chunk, len, BlockSize) == ChunkOffsets(len)
    && sizes + SizesFrom(chunk, len) == ChunkSizes(len)
    && chunk == |offsets| * BlockSize
    && log == log0 + WritesAt(offsets)
    && |data| == Max(|d0|, chunk) && cursor == chunk
    && (chunk == 0 ==> buf == buf0 && data == d0)
    && (chunk > 0 ==> buf == data[chunk - BlockSize .. chunk])
    && (BlockSize < len ==> forall k :: len <= k < chunk ==> data[k] == data[k - BlockSize])
    && (len <= BlockSize ==> chunk <= BlockSize && forall k :: len <= k < chunk ==> data[k] == buf0[k])
    && (len <= BlockSize ==> forall k :: len <= k < BlockSize ==> buf[k] == buf0[k])
  }

  /**
   * One iteration of the chunk loop: refill `buf[..chunk_size]` (the rest of
   * the buffer keeps its bytes) and write the whole buffer at the cursor.
   */
  lemma ChunkStep(data: seq<byte>, log: seq<IoOp>, buf: seq<byte>, filled: seq<byte>,
                  d0: seq<byte>, log0: seq<IoOp>, buf0: seq<byte>,
                  offsets: seq<nat>, sizes: seq<nat>, chunk: nat, len: nat)
    requires ChunkProgress(data, chunk, log, buf, d0, log0, buf0, offsets, sizes, chunk, len)
    requires chunk < len && |filled| == BlockSize
    requires forall k :: ChunkSize(len, chunk) <= k < BlockSize ==> filled[k] == buf[k]
    ensures ChunkProgress(WriteAt(data, chunk, filled), chunk + BlockSize, log + [Write(chunk, BlockSize)],
                          filled, d0, log0, buf0, offsets + [chunk], sizes + [ChunkSize(len, chunk)],
                          chunk + BlockSize, len)
  {
  }

  /**
   * The file and buffer after every chunk of a pass was written, as values:
   * `data`, `cursor` and `buf` now, `data0` and `buf0` before the pass. The
   * file is at least `PassLength(len)` long, the cursor there, the buffer
   * holds the last 4096 bytes written, and the bytes from `len` up to
   * `PassLength(len)` are a stale copy: of the 4096 bytes before them when
   * the pass had two chunks or more, of the buffer's earlier contents when
   * it had one.
   */
  ghost predicate Overwritten(data: seq<byte>, cursor: nat, buf: seq<byte>,
                              data0: seq<byte>, buf0: seq<byte>, len: nat)
  {
    && |buf0| == BlockSize
    && |data| == Max(|data0|, PassLength(len)) && cursor == PassLength(len)
    && (len > 0 ==> buf == data[PassLength(len) - BlockSize .. PassLength(len)])
    && (BlockSize < len ==> forall k :: len <= k < PassLength(len) ==> data[k] == data[k - BlockSize])
    && (len <= BlockSize ==> forall k :: len <= k < PassLength(len) ==> k < BlockSize && data[k] == buf0[k])
    && (len == 0 ==> data == data0 && buf == buf0)
  }

  /**
   * A pass numbered `pass` stopped with `o`: at a chunk offset of the pass
   * when the fill or the write failed, with the log grown by the steps done
   * in this pass and the file length `size` those steps give it.
   */
  ghost predicate PassStop(o: Outcome, pass: nat, len: nat, log: seq<IoOp>, log0: seq<IoOp>,
                           size: nat, size0: nat)
  {
    && StopsInPass(o) && PassOf(o) == pass
    && (StopsAtChunk(o) ==> OffsetOf(o) % BlockSize == 0 && OffsetOf(o) < len)
    && log == log0 + PassOps(len, o)
    && size == PassStopLength(size0, len, o)
  }

  /** A loop that stops at `chunk` has visited the first `chunk / 4096` offsets. */
  lemma ChunkStopped(data: seq<byte>, log: seq<IoOp>, buf: seq<byte>,
                     d0: seq<byte>, log0: seq<IoOp>, buf0: seq<byte>,
                     offsets: seq<nat>, sizes: seq<nat>, chunk: nat, len: nat,
                     logStart: seq<IoOp>, pass: nat, o: Outcome)
    requires ChunkProgress(data, chunk, log, buf, d0, log0, buf0, offsets, sizes, chunk, len)
    requires chunk < len && log0 == logStart + [Rewind]
    requires o == Panicked(FillFailed(pass, chunk)) || o == Failed(WriteChunk(pass, chunk))
    ensures PassStop(o, pass, len, log, logStart, |data|, |d0|)
  {
  }

  /** When the chunk loop exits it has visited every offset and written up to `PassLength(len)`. */
  lemma ChunksFinished(data: seq<byte>, log: seq<IoOp>, buf: seq<byte>,
                       d0: seq<byte>, log0: seq<IoOp>, buf0: seq<byte>,
                       offsets: seq<nat>, sizes: seq<nat>, chunk: nat, len: nat)
    requires ChunkProgress(data, chunk, log, buf, d0, log0, buf0, offsets, sizes, chunk, len)
    requires chunk >= len
    ensures offsets == ChunkOffsets(len) && sizes == ChunkSizes(len)
    ensures log == log0 + WritesAt(ChunkOffsets(len))
    ensures Overwritten(data, chunk, buf, d0, buf0, len)
  {
    assert StepBy(chunk, len, BlockSize) == [] && SizesFrom(chunk, len) == [];
    assert offsets == ChunkOffsets(len);
    ChunkOffsetsExact(len);
    assert chunk == PassLength(len);
  }

  /**
   * The chunk loop of one pass (the inner `for` loop), starting at offset 0:
   * for each chunk offset refill the first `chunk_size` bytes of the buffer
   * and write the WHOLE buffer at the cursor. The ghost results are the
   * offsets visited and the chunk sizes used; `logStart` is the log before
   * the rewind that began the pass.
   */
  method WriteChunks(file: MemFile, buffer: array<byte>, len: nat, pass: nat, ghost logStart: seq<IoOp>)
    returns (end: Progress, ghost offsets: seq<nat>, ghost sizes: seq<nat>)
    requires buffer.Length == BlockSize && file.cursor == 0 && file.log == logStart + [Rewind]
    modifies file, buffer
    ensures end.Done? ==> offsets == ChunkOffsets(len) && sizes == ChunkSizes(len)
    ensures end.Done? ==> file.log == old(file.log) + WritesAt(ChunkOffsets(len))
    ensures end.Done? ==>
      Overwritten(file.data, file.cursor, buffer[..], old(file.data), old(buffer[..]), len)
    ensures end.Stopped? ==>
      StopsAtChunk(end.outcome) && PassStop(end.outcome, pass, len, file.log, logStart, |file.data|, |old(file.data)|)
    ensures len <= BlockSize ==> forall k :: len <= k < BlockSize ==> buffer[k] == old(buffer[k])
  {
    offsets, sizes := [], [];
    ghost var d0, log0, buf0 := file.data, file.log, buffer[..];
    var chunk: nat := 0;
    while chunk < len
      invariant ChunkProgress(file.data, file.cursor, file.log, buffer[..], d0, log0, buf0, offsets, sizes, chunk, len)
      decreases len - chunk
    {
      var chunkSize := ChunkSize(len, chunk);
      ghost var data, log, buf := file.data, file.log, buffer[..];
      var ok := Fill(buffer, chunkSize);
      if !ok {
        ChunkStopped(data, log, buf, d0, log0, buf0, offsets, sizes, chunk, len,
                     logStart, pass, Panicked(FillFailed(pass, chunk)));
        return Stopped(Panicked(FillFailed(pass, chunk))), offsets, sizes;
      }
      ok := file.WriteAll(buffer);
      if !ok {
        ChunkStopped(data, log, buf, d0, log0, buf0, offsets, sizes, chunk, len,
                     logStart, pass, Failed(WriteChunk(pass, chunk)));
        return Stopped(Failed(WriteChunk(pass, chunk))), offsets, sizes;
      }
      ChunkStep(data, log, buf, buffer[..], d0, log0, buf0, offsets, sizes, chunk, len);
      offsets, sizes := offsets + [chunk], sizes + [chunkSize];
      chunk := chunk + BlockSize;
    }
    ChunksFinished(file.data, file.log, buffer[..], d0, log0, buf0, offsets, sizes, chunk, len);
    end := Done;
  }

  /**
   * One overwrite pass (the body of the outer `for` loop): rewind, write
   * every chunk, sync. The ghost results are the offsets visited and the
   * chunk sizes used.
   */
  method OverwritePass(file: MemFile, buffer: array<byte>, len: nat, pass: nat)
    returns (end: Progress, ghost offsets: seq<nat>, ghost sizes: seq<nat>)
    requires buffer.Length == BlockSize
    modifies file, buffer
    ensures end.Done? ==> offsets == ChunkOffsets(len) && sizes == ChunkSizes(len)
    ensures end.Done? ==> file.log == old(file.log) + PassLog(len)
    ensures end.Done? ==>
      Overwritten(file.data, file.cursor, buffer[..], old(file.data), old(buffer[..]), len)
    ensures end.Stopped? ==>
      PassStop(end.outcome, pass, len, file.log, old(file.log), |file.data|, |old(file.data)|)
    ensures len <= BlockSize ==> forall k :: len <= k < BlockSize ==> buffer[k] == old(buffer[k])
  {
    offsets, sizes := [], [];
    ghost var logStart := file.log;
    var ok := file.Rewind();
    if !ok {
      assert PassOps(len, Failed(RewindPass(pass))) == [];
      return Stopped(Failed(RewindPass(pass))), offsets, sizes;
    }
    end, offsets, sizes := WriteChunks(file, buffer, len, pass, logStart);
    if end.Stopped? {
      return;
    }
    Regroup3(logStart, [Rewind], WritesAt(ChunkOffsets(len)));
    ok := file.Sync();
    if !ok {
      assert PassOps(len, Failed(SyncPass(pass))) == [Rewind] + WritesAt(ChunkOffsets(len));
      return Stopped(Failed(SyncPass(pass))), offsets, sizes;
    }
    Regroup(logStart, [Rewind], WritesAt(ChunkOffsets(len)), [SyncData]);
  }

  /**
   * The state after `n` complete passes over a file of snapshotted length
   * `len`, as values: the log has grown by `n` pass logs after `start`, and
   * when `n > 0` the file is `PassLength(len)` long and its bytes past `len`
   * repeat the 4096 bytes before them, or are zeros (the initial buffer)
   * when a pass is a single chunk.
   */
  ghost predicate PassesApplied(data: seq<byte>, log: seq<IoOp>, start: seq<IoOp>, len: nat, n: nat)
  {
    && log == start + PassesLog(len, n)
    && |data| == LengthAfterPasses(len, n)
    && (n > 0 && BlockSize < len ==> forall k :: len <= k < PassLength(len) ==> data[k] == data[k - BlockSize])
    && (n > 0 && len <= BlockSize ==> forall k :: len <= k < PassLength(len) ==> data[k] == 0)
    && (len == 0 ==> data == [])
  }

  /**
   * A run on a file of snapshotted length `len` ended with `o` at a point it
   * can reach, having appended the completed operations to `log0` and left
   * the file `size` bytes long.
   */
  ghost predicate RunEnded(len: nat, o: Outcome, log: seq<IoOp>, log0: seq<IoOp>, size: nat)
  {
    && Reachable(len, o)
    && log == log0 + CompletedOps(len, o)
    && size == LengthAt(len, o)
  }

  lemma NextPass(data: seq<byte>, log: seq<IoOp>, buf: seq<byte>,
                 data': seq<byte>, log': seq<IoOp>, buf': seq<byte>,
                 start: seq<IoOp>, len: nat, pass: nat)
    requires PassesApplied(data, log, start, len, pass) && |buf| == BlockSize
    requires len <= BlockSize ==> forall k :: len <= k < BlockSize ==> buf[k] == 0
    requires log' == log + PassLog(len)
    requires Overwritten(data', PassLength(len), buf', data, buf, len)
    ensures PassesApplied(data', log', start, len, pass + 1)
  {
  }

  lemma StoppedInPasses(data: seq<byte>, log: seq<IoOp>, log': seq<IoOp>, size: nat,
                        log0: seq<IoOp>, len: nat, pass: nat, o: Outcome)
    requires PassesApplied(data, log, log0 + [SeekEnd], len, pass) && pass < OverwritePasses
    requires PassStop(o, pass, len, log', log, size, |data|)
    ensures StopsInPass(o) && RunEnded(len, o, log', log0, size)
  {
    var ops := PassOps(len, o);
    assert CompletedOps(len, o) == [SeekEnd] + PassesLog(len, pass) + ops;
    Regroup(log0, [SeekEnd], PassesLog(len, pass), ops);
    assert LengthAt(len, o) == PassStopLength(LengthAfterPasses(len, pass), len, o);
  }

  /**
   * The seven overwrite passes (`src/main.rs` lines 65-85), with the buffer
   * allocated zeroed once and reused. Every pass plans its chunks from the
   * same snapshotted `len`, however much earlier passes grew the file.
   */
  method Overwrite(file: MemFile, len: nat, ghost log0: seq<IoOp>) returns (end: Progress)
    requires |file.data| == len && file.log == log0 + [SeekEnd]
    modifies file
    ensures end.Done? ==> PassesApplied(file.data, file.log, log0 + [SeekEnd], len, OverwritePasses)
    ensures end.Stopped? ==>
      StopsInPass(end.outcome) && RunEnded(len, end.outcome, file.log, log0, |file.data|)
  {
    var buffer := new byte[BlockSize](_ => 0);
    var pass: nat := 0;
    while pass < OverwritePasses
      invariant pass <= OverwritePasses
      invariant PassesApplied(file.data, file.log, log0 + [SeekEnd], len, pass)
      invariant len <= BlockSize ==> forall k :: len <= k < BlockSize ==> buffer[k] == 0
    {
      ghost var data, log, buf := file.data, file.log, buffer[..];
      var passEnd, offsets, sizes := OverwritePass(file, buffer, len, pass);
      if passEnd.Stopped? {
        StoppedInPasses(data, log, file.log, |file.data|, log0, len, pass, passEnd.outcome);
        return passEnd;
      }
      NextPass(data, log, buf, file.data, file.log, buffer[..], log0 + [SeekEnd], len, pass);
      pass := pass + 1;
    }
    end := Done;
  }

  /** Whether `o` ends the run in the path steps, after the file was emptied. */
  predicate InPathSteps(o: Outcome)
  {
    o in {Panicked(NoParent), Failed(RenameToTemp), Failed(RemoveTemp), Shredded}
  }

  /** A run that stopped in the truncation steps, after the seven passes. */
  lemma TruncationStop(len: nat, o: Outcome, log: seq<IoOp>, log0: seq<IoOp>, size: nat)
    requires o == Failed(RewindTruncate) || o == Failed(Truncate) || o == Failed(SyncTruncate)
    requires log == log0 + [SeekEnd] + PassesLog(len, OverwritePasses) + TruncationOps(o)
    requires size == if o == Failed(SyncTruncate) then 0 else PassLength(len)
    ensures RunEnded(len, o, log, log0, size)
  {
  }

  /**
   * The truncation after the seven passes (`src/main.rs` lines 87-93): rewind, cut
   * the file to zero bytes and sync. `len` is the snapshotted length and
   * `log0` the log before the length was read.
   */
  method EmptyFile(file: MemFile, ghost len: nat, ghost log0: seq<IoOp>) returns (end: Progress)
    requires PassesApplied(file.data, file.log, log0 + [SeekEnd], len, OverwritePasses)
    modifies file
    ensures end.Done? ==> file.log == log0 + ShredLog(len) && file.data == [] && file.cursor == 0
    ensures end.Stopped? ==>
      || end.outcome == Failed(RewindTruncate) || end.outcome == Failed(Truncate)
      || end.outcome == Failed(SyncTruncate)
    ensures end.Stopped? ==> RunEnded(len, end.outcome, file.log, log0, |file.data|)
  {
    ghost var done := file.log;
    var ok := file.Rewind();
    if !ok {
      assert file.log == done + TruncationOps(Failed(RewindTruncate));
      TruncationStop(len, Failed(RewindTruncate), file.log, log0, |file.data|);
      return Stopped(Failed(RewindTruncate));
    }
    ok := file.SetLength(0);
    if !ok {
      TruncationStop(len, Failed(Truncate), file.log, log0, |file.data|);
      return Stopped(Failed(Truncate));
    }
    Regroup3(done, [Rewind], [SetLen(0)]);
    ok := file.Sync();
    if !ok {
      TruncationStop(len, Failed(SyncTruncate), file.log, log0, |file.data|);
      return Stopped(Failed(SyncTruncate));
    }
    Regroup3(done, [Rewind, SetLen(0)], [SyncData]);
    Regroup(log0, [SeekEnd], PassesLog(len, OverwritePasses), [Rewind, SetLen(0), SyncData]);
    end := Done;
  }

  /**
   * The file part of `shred` (`src/main.rs` lines 61-93): read the length, run the
   * seven passes and empty the file. When it is done the file has seen
   * exactly the operations of a complete run and is empty.
   */
  method WipeFile(file: MemFile) returns (end: Progress)
    modifies file
    ensures end.Done? ==>
      && file.log == old(file.log) + ShredLog(|old(file.data)|)
      && file.data == [] && file.cursor == 0
    ensures end.Stopped? ==> end.outcome != Failed(OpenFile) && !InPathSteps(end.outcome)
    ensures end.Stopped? ==> RunEnded(|old(file.data)|, end.outcome, file.log, old(file.log), |file.data|)
  {
    ghost var log0 := file.log;
    var ok, fileLength := file.SeekEnd();
    if !ok {
      return Stopped(Failed(SeekLength));
    }
    end := Overwrite(file, fileLength, log0);
    if end.Stopped? {
      return;
    }
    end := EmptyFile(file, fileLength, log0);
  }

  /** A run that got past the file part ends with the operations of a complete run and an empty file. */
  lemma FinishedRun(len: nat, o: Outcome, log: seq<IoOp>, log0: seq<IoOp>)
    requires InPathSteps(o) && log == log0 + ShredLog(len)
    ensures RunEnded(len, o, log, log0, 0)
  {
  }

  /**
   * `shred(file_path)`. On success the file was overwritten seven times,
   * emptied, renamed to the temporary path and removed, so the volume has
   * lost the original path and the temporary path (an unrelated file that
   * already had the temporary path is replaced and removed with it). When
   * the temporary path already names the same file, the rename does nothing
   * and only the temporary path is removed: the emptied file keeps its
   * original name unless the two paths are equal. On any
   * other outcome the completed file operations are the first ones of a
   * complete run and the file has the length they give it.
   */
  method Shred(volume: Volume, path: Path) returns (r: Outcome)
    modifies volume, if path in volume.files then {volume.files[path]} else {}
    ensures path !in old(volume.files) ==> r == Failed(OpenFile)
    ensures r == Failed(OpenFile) ==> volume.files == old(volume.files)
    ensures r == Failed(OpenFile) && path in old(volume.files) ==> unchanged(old(volume.files)[path])
    ensures r != Failed(OpenFile) ==>
      && path in old(volume.files)
      && RunEnded(|old(volume.files[path].data)|, r, old(volume.files)[path].log,
                  old(volume.files[path].log), |old(volume.files)[path].data|)
    ensures r == Shredded ==> old(volume.files)[path].data == [] && old(volume.files)[path].cursor == 0
    ensures r == Shredded || r == Failed(RemoveTemp) ==> TempPath(path).Some?
    ensures r == Shredded && !SameFile(old(volume.files), path, TempPath(path).value) ==>
      volume.files == old(volume.files) - {path, TempPath(path).value}
    ensures r == Shredded && SameFile(old(volume.files), path, TempPath(path).value) ==>
      volume.files == old(volume.files) - {TempPath(path).value}
    ensures r == Failed(RemoveTemp) && !SameFile(old(volume.files), path, TempPath(path).value) ==>
      volume.files == (old(volume.files) - {path})[TempPath(path).value := old(volume.files)[path]]
    ensures r == Failed(RemoveTemp) && SameFile(old(volume.files), path, TempPath(path).value) ==>
      volume.files == old(volume.files)
    ensures r == Panicked(NoParent) ==> TempPath(path).None?
    ensures r != Shredded && r != Failed(RemoveTemp) ==> volume.files == old(volume.files)
  {
    var handle := volume.Open(path);
    if handle.None? {
      return Failed(OpenFile);
    }
    var file := handle.value;
    ghost var log0, len := file.log, |file.data|;
    var end := WipeFile(file);
    if end.Stopped? {
      return end.outcome;
    }
    var newPath := TempPath(path);
    if newPath.None? {
      r := Panicked(NoParent);
    } else {
      var ok := volume.Rename(path, newPath.value);
      if !ok {
        r := Failed(RenameToTemp);
      } else {
        ok := volume.RemoveFile(newPath.value);
        r := if ok then Shredded else Failed(RemoveTemp);
      }
    }
    FinishedRun(len, r, file.log, log0);
  }
}
