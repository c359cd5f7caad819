/**
 * The abstract in-memory file that the shredding procedure works on: a byte
 * sequence plus a cursor, with the operations `shred` calls on its
 * `std::fs::File` (rewind, seek to the end, write_all, set_len, sync_data).
 *
 * Every fallible operation may fail for reasons outside the model (a full
 * disk, a removed device, a permission check); the choice is left to the
 * verifier (`ok := *`), and a failed operation leaves the file unchanged.
 */
module Storage {

  newtype byte = b: int | 0 <= b < 256

  function Max(a: nat, b: nat): (r: nat)
    ensures r >= a && r >= b && (r == a || r == b)
  {
    if a >= b then a else b
  }

  function Zeros(n: nat): (r: seq<byte>)
    ensures |r| == n
    ensures forall k :: 0 <= k < n ==> r[k] == 0
  {
    seq(n, _ => 0)
  }

  /**
   * The file contents after writing `b` at position `pos`: the bytes at
   * `pos ..` are overwritten, the file is extended when the write runs past
   * its end, and a gap between the old end and `pos` reads as zeros.
   */
  function WriteAt(d: seq<byte>, pos: nat, b: seq<byte>): (r: seq<byte>)
    ensures |r| == Max(|d|, pos + |b|)
    ensures forall k :: 0 <= k < |r| ==>
      r[k] == (if pos <= k < pos + |b| then b[k - pos] else if k < |d| then d[k] else 0)
  {
    var padded := if pos <= |d| then d else d + Zeros(pos - |d|);
    padded[..pos] + b + (if pos + |b| < |padded| then padded[pos + |b|..] else [])
  }

  /** The file contents after `set_len(size)`: cut to `size`, or zero-extended. */
  function Resized(d: seq<byte>, size: nat): (r: seq<byte>)
    ensures |r| == size
    ensures forall k :: 0 <= k < size ==> r[k] == (if k < |d| then d[k] else 0)
  {
    if size <= |d| then d[..size] else d + Zeros(size - |d|)
  }

  /** One file operation that completed; a file keeps the history of these. */
  datatype IoOp =
    | SeekEnd
    | Rewind
    | Write(at: nat, count: nat)
    | SyncData
    | SetLen(size: nat)

  class MemFile {
    var data: seq<byte>
    var cursor: nat
    /** The operations completed on this file, oldest first. */
    ghost var log: seq<IoOp>

    constructor (contents: seq<byte>)
      ensures data == contents && cursor == 0 && log == []
    {
      data := contents;
      cursor := 0;
      log := [];
    }

    /** `file.rewind()`: the cursor goes back to offset 0. */
    method Rewind() returns (ok: bool)
      modifies this
      ensures ok ==> data == old(data) && cursor == 0 && log == old(log) + [IoOp.Rewind]
      ensures !ok ==> unchanged(this)
    {
      ok := *;
      if ok {
        cursor := 0;
        log := log + [IoOp.Rewind];
      }
    }

    /** `file.seek(SeekFrom::End(0))`: moves the cursor to the end and returns it. */
    method SeekEnd() returns (ok: bool, pos: nat)
      modifies this
      ensures ok ==> pos == |data| && data == old(data) && cursor == |data|
      ensures ok ==> log == old(log) + [IoOp.SeekEnd]
      ensures !ok ==> unchanged(this)
    {
      ok := *;
      pos := 0;
      if ok {
        pos := |data|;
        cursor := |data|;
        log := log + [IoOp.SeekEnd];
      }
    }

    /**
     * `file.write_all(buf)`: all of `buf` is written at the cursor, which
     * then advances past it.
     */
    method WriteAll(buf: array<byte>) returns (ok: bool)
      modifies this
      ensures ok ==> data == WriteAt(old(data), old(cursor), buf[..])
      ensures ok ==> cursor == old(cursor) + buf.Length
      ensures ok ==> log == old(log) + [Write(old(cursor), buf.Length)]
      ensures !ok ==> unchanged(this)
    {
      ok := *;
      if ok {
        data := WriteAt(data, cursor, buf[..]);
        log := log + [Write(cursor, buf.Length)];
        cursor := cursor + buf.Length;
      }
    }

    /** `file.set_len(size)`: the cursor is not moved. */
    method SetLength(size: nat) returns (ok: bool)
      modifies this
      ensures ok ==> data == Resized(old(data), size) && cursor == old(cursor)
      ensures ok ==> log == old(log) + [SetLen(size)]
      ensures !ok ==> unchanged(this)
    {
      ok := *;
      if ok {
        data := Resized(data, size);
        log := log + [SetLen(size)];
      }
    }

    /** `file.sync_data()`: durability is not modelled, so only the history changes. */
    method Sync() returns (ok: bool)
      modifies this
      ensures ok ==> data == old(data) && cursor == old(cursor) && log == old(log) + [SyncData]
      ensures !ok ==> unchanged(this)
    {
      ok := *;
      if ok {
        log := log + [SyncData];
      }
    }
  }
}
