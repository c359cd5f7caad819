# shred — a verified model of the single-file shredding procedure

This project models `shred(file_path)` from `src/main.rs`. The procedure destroys one file:

1. It opens the file and reads its length `L` once, by seeking to the end.
2. It overwrites the file in seven passes. Each pass rewinds, then goes through the chunk offsets `0, 4096, 8192, … < L`. At each offset it refills the first `min(4096, L - offset)` bytes of one reused 4096-byte buffer, writes the whole buffer, and syncs at the end of the pass.
3. It rewinds, truncates the file to zero bytes and syncs.
4. It renames the file to a path made of its parent directory, `/` and 32 `'0'` characters.
5. It removes that path.

Every `?` is an early return: the remaining steps are skipped, and the completed ones stay done. The two panics are `.expect` on the random filler and `.unwrap` on the parent path. They also end the run with the earlier steps in place.

The project has five modules.

- `Storage` (`storage.dfy`) holds the abstract file. A `MemFile` is a class with a byte sequence `data`, a `cursor` and a ghost `log` of the operations that completed on it. Its methods are `Rewind`, `SeekEnd`, `WriteAll`, `SetLength` and `Sync`. Each of them may fail, and a failed operation leaves the file unchanged. `WriteAt` and `Resized` state what a write and a `set_len` do to the bytes.
- `RandomFiller` (`fill.dfy`) holds `fill`, which the procedure calls but does not define. It is modelled by what the caller may rely on. It may put any bytes into `buffer[..n]`, never touches the bytes from `n` on, and may fail.
- `Schedule` (`schedule.dfy`) holds the overwrite schedule as pure functions:
  - the chunk offsets (`StepBy`, modelling `step_by`), the chunk sizes and the length one pass leaves behind;
  - the exact sequence of file operations a complete run performs (`ShredLog`);
  - `Replay`, a reference definition of what any sequence of operations does to the length and the cursor.
- `Volume` (`volume.dfy`) holds the directory side. A `Volume` is a class mapping paths to files, with `Open`, `Rename` and `RemoveFile`. It also defines the temporary path (`Parent`, `TempName`, `TempPath`).
- `Shredding` (`shred.dfy`) holds the procedure itself as imperative methods over a `MemFile`, a 4096-byte `array` buffer and a `Volume`:
  - `WriteChunks` is the inner loop;
  - `OverwritePass` is one pass;
  - `Overwrite` runs the seven passes;
  - `EmptyFile` is the truncation;
  - `WipeFile` is the file part;
  - `Shred` is the whole procedure.

  Runs end with an `Outcome`: `Shredded`, `Failed(phase)` naming the step that failed, or `Panicked(...)`. `CompletedOps(L, o)` and `LengthAt(L, o)` say, for every outcome, which file operations were done and how long the file is. `Shred` is proved to leave exactly that log and length.

Behaviours of the code that the model keeps:

- **Full-buffer writes.** Each chunk writes the whole 4096-byte buffer (`src/main.rs:81`), although the comment at line 75 says a final short chunk uses the smaller size. A file whose length is not a multiple of 4096 therefore grows to the next multiple (`PassLength`; 4097 becomes 8192). The stale buffer tail lands past the original end. Later passes still plan their chunks from the length read at open time.
- **Partial refill.** Only `buffer[..chunk_size]` is refilled (line 79); the rest of the buffer keeps what the previous chunk left there.
- **Constant temporary name.** The temporary name is always 32 zeros (lines 95-97). It can even equal the original path (`TempPathIsOriginal`), and two files of one directory get the same temporary path (`NameIndependent`).
- **Bare names.** For a bare file name the parent is empty, so the temporary path is `"/"` followed by the zeros, a path in the root directory.
- **Failed fill.** A failed fill panics through `.expect` (line 79); it is not returned as an error.

## Model

| member | source | states |
|---|---|---|
| Storage.WriteAt | src/main.rs:81 | the bytes written replace the file from the cursor on, the file is extended when the write runs past its end, and bytes outside the write keep their values |
| Storage.Resized | src/main.rs:90 | `set_len(size)` makes the file exactly `size` bytes long, keeping the first bytes and padding with zeros |
| Storage.MemFile.Rewind | src/main.rs:70 | on success the cursor is 0 and the contents are unchanged; on failure nothing changes |
| Storage.MemFile.SeekEnd | src/main.rs:61 | on success the returned position is the file length and the cursor is there; on failure nothing changes |
| Storage.MemFile.WriteAll | src/main.rs:81 | on success the whole buffer is written at the cursor (`WriteAt`) and the cursor advances by the buffer length; on failure nothing changes |
| Storage.MemFile.SetLength | src/main.rs:90 | on success the contents are `Resized` and the cursor does not move; on failure nothing changes |
| Storage.MemFile.Sync | src/main.rs:84 | contents and cursor are unchanged; success is recorded in the log |
| RandomFiller.Fill | src/main.rs:79 | buffer bytes from `chunk_size` on keep their values, whether the fill succeeds or fails |
| Schedule.StepBy | src/main.rs:73 | every value of `(start..end).step_by(step)` lies in `[start, end)` |
| Schedule.ChunkOffsets | src/main.rs:73 | every chunk offset is below the snapshotted length |
| Schedule.NumChunks | src/main.rs:73 | the number of chunks is 0 exactly for an empty file and at most 1 exactly for a file of at most 4096 bytes |
| Schedule.ChunkOffsetsExact | src/main.rs:73 | the offsets of a pass are exactly the multiples of 4096 below `L`, the i-th being `i * 4096`, strictly increasing, and there are `ceil(L / 4096)` of them |
| Schedule.ChunkSize | src/main.rs:76 | `min(4096, L - offset)` lies in 1..4096 and does not run past `L` |
| Schedule.ChunkSizesExact | src/main.rs:73-76 | one size per offset, each in 1..4096, all but the last equal to 4096, and their sum is exactly `L` |
| Schedule.StepEnd | src/main.rs:73 | the iteration stops at the first value at or past `end`, less than 4096 beyond it, congruent to `start` modulo 4096 |
| Schedule.PassLength | src/main.rs:73-81 | the length one pass writes up to is `L` rounded up to a multiple of 4096: 0 for an empty file, 4096 for 1..4096 bytes |
| Schedule.PassLengthExact | src/main.rs:73-81 | the pass length equals `L` exactly when `L` is a multiple of 4096, and equals `ceil(L / 4096) * 4096` |
| Schedule.PassLengthExamples | src/main.rs:73-81 | 4097 bytes grow to 8192, 4096 stay 4096, 1 byte grows to 4096 |
| Schedule.PassReplay | src/main.rs:70-84 | replaying one pass from any state leaves the file `max(old length, PassLength(L))` long with the cursor at `PassLength(L)` |
| Schedule.ShredLogShape | src/main.rs:52-93 | a complete run rewinds and syncs 8 times, writes `7 * ceil(L / 4096)` full buffers, all at multiples of 4096 below `L`, and none for an empty file |
| Schedule.ShredLogReplay | src/main.rs:57-93 | replayed from a freshly opened file, the seven passes leave it `PassLength(L)` long, and the complete run leaves length 0 and cursor 0 |
| Volume.LastSlash | src/main.rs:103-104 | the index returned holds the last `/`, or -1 when the path has none |
| Volume.Parent | src/main.rs:103-105 | no parent exactly when the path has no final component; otherwise the parent is the text before the last `/`, or empty when there is none |
| Volume.TempName | src/main.rs:97 | the temporary name is 32 `'0'` characters |
| Volume.TempPath | src/main.rs:101-109 | the temporary path exists exactly when the path has a final component (else `parent().unwrap()` panics); it ends in the 32-character temporary name; when the path contains a `/` it has the same parent, so it lies in the same directory, while for a bare name it lies in the root directory (`TempPathShape`) |
| Volume.TempPathShape | src/main.rs:97-109 | the temporary path is the parent, `/` and 32 zeros; a bare name gives `"/"` and the zeros |
| Volume.NameIndependent | src/main.rs:97-109 | two files of one directory get the same temporary path, whatever their names |
| Volume.TempPathIsOriginal | src/main.rs:97-111 | the temporary path equals the original exactly when the original has a `/` and a final name of 32 zeros |
| Volume.Volume.Open | src/main.rs:57 | a missing path fails; a successful open returns the file at that path with its contents unchanged and the cursor at 0; a failed open changes nothing |
| Volume.Volume.Rename | src/main.rs:111 | on success the entry moves from the old path to the new one, replacing what was there, except that renaming between two names of the same file changes nothing; on failure nothing changes |
| Volume.Volume.RemoveFile | src/main.rs:114 | on success exactly that entry is gone; on failure nothing changes |
| Shredding.ChunkStep | src/main.rs:76-81 | one refill and full-buffer write keeps the loop state: offsets and sizes extended by this chunk, the log by one write, the cursor by 4096, and the stale tail pattern |
| Shredding.WriteChunks | src/main.rs:73-82 | the loop visits exactly `ChunkOffsets(L)` with sizes `ChunkSizes(L)`, logs one full-buffer write per offset and leaves the file `Overwritten`; a stop is at a chunk of this pass with the writes done so far logged |
| Shredding.OverwritePass | src/main.rs:68-85 | a pass appends exactly `PassLog(L)` (rewind, one write per chunk, sync), leaves the file at least `PassLength(L)` long with the cursor there and the stale tail in place; a stop names this pass and logs the steps done |
| Shredding.Overwrite | src/main.rs:65-85 | after seven passes from a zeroed buffer the log holds seven pass logs and the file is `PassLength(L)` long; for a one-chunk file the bytes past `L` are zeros; an empty file stays empty; a stop is reachable, logs `CompletedOps` and has length `LengthAt` |
| Shredding.EmptyFile | src/main.rs:87-93 | when done, the log is exactly `ShredLog(L)`, the file is empty and the cursor is 0; a stop names the truncation step that failed |
| Shredding.WipeFile | src/main.rs:61-93 | when done, the file saw exactly the operations of a complete run and is empty; otherwise the run ended at a reachable point with `CompletedOps` logged and length `LengthAt` |
| Shredding.Shred | src/main.rs:50-118 | a missing or unopenable file changes nothing; on success the file is empty and both the path and the temporary path are gone from the volume, unless the temporary path already named the same file, when only the temporary path is gone; a failed remove leaves the file under the temporary path; every other outcome leaves the volume unchanged; every outcome has `CompletedOps` logged and length `LengthAt` |
| Shredding.CompletedOpsArePrefix | src/main.rs:57-114 | for every reachable outcome the completed file operations are a prefix of the complete run, and all of it on success: nothing is undone or done out of order |
| Shredding.LengthAtByReplay | src/main.rs:57-93 | the closed-form length `LengthAt` agrees with replaying the completed operations from a freshly opened file |
| Shredding.PassOpsReplay | src/main.rs:70-84 | replaying the steps of an interrupted pass gives the closed-form `PassStopLength` |
| Shredding.TruncationReplay | src/main.rs:87-93 | replaying the truncation steps leaves the length unchanged until `set_len(0)` succeeds, and 0 afterwards |

## Left out

- `main` (`src/main.rs:11-48`): argument handling, the usage message, timing and printing are not modelled.
- Real file system semantics are not modelled. This covers permissions, how the open handle is shared with the directory entry, durability, and crashes. `sync_data` only records itself in the log, and whether any operation fails is left open.
- Storage.MemFile.WriteAll: a failed `write_all` leaves the file unchanged. A real partial write, after which the error is returned, is not modelled.
- RandomFiller.Fill: the contract says nothing about the bytes it writes into `buffer[..chunk_size]`. Their randomness and quality are outside the model, and the model does not claim that the new bytes differ from the original content.
- Volume.Parent is a simplified `Path::parent`: the text before the last `/`, else the empty string, and no parent for the empty path or a path made only of `/`.
  - Rust normalises trailing separators and a leading root: `"/foo"` has parent `"/"` and so gives `"//000…"`, where the model gives `"/000…"`.
  - The model's `Parent` gives `""` both for a bare name (the working directory in Rust) and for a root-level path such as `"/000…"`, so `Parent` alone cannot tell the two directories apart; `TempPath` states "same parent" only for paths that contain a `/`.
  - The `.to_str().unwrap()` that follows cannot fail for string paths and is not modelled.
  - The `.unwrap()` on the parent is modelled as the outcome `Panicked(NoParent)`, not as a precondition.
- `String::from_utf8_lossy` on 32 ASCII zeros is modelled as its result, the string of 32 `'0'` characters.
- Integer widths are not modelled. The length is a `u64` and the model uses unbounded naturals. `L - chunk` never underflows because `chunk < L`.
- Schedule.ChunkSize: the model computes `min(4096, L - offset)` exactly, which is what a 64-bit target does. On a 32-bit target `(file_length - chunk) as usize` at line 76 keeps only the low 32 bits whenever `L - offset >= 2^32`. For `L = 2^32 + 5` the first chunk then gets size 5, and the 4091 bytes of the buffer that are not refilled (zeros in the first pass) are written over the file's first block. The model does not capture this.
- A panic aborts the whole process. The model only ends the run with a `Panicked` outcome and leaves the earlier steps in place.
- Directory recursion, several operands and symlink or device handling are not part of this model: the code has none of them.
