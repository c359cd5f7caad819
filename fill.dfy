/**
 * The random filler `fill(&mut buffer[..n])` that `shred` calls but whose
 * definition is not in `src/main.rs` (it is neither defined nor imported
 * there). It is modelled by what the caller may rely on: it MAY replace any
 * byte of the prefix `buffer[..n]` with any value, or it may fail; the bytes
 * from `n` on are never touched.
 */
module RandomFiller {
  import opened Storage

  method Fill(buffer: array<byte>, n: nat) returns (ok: bool)
    requires n <= buffer.Length
    modifies buffer
    ensures forall k :: n <= k < buffer.Length ==> buffer[k] == old(buffer[k])
  {
    ok := *;
    if !ok {
      return;
    }
    var i := 0;
    while i < n
      invariant i <= n
      invariant forall k :: n <= k < buffer.Length ==> buffer[k] == old(buffer[k])
    {
      var b: byte := *;
      buffer[i] := b;
      i := i + 1;
    }
  }
}
