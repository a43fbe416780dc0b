/** The buffers of `event_serial` in src/sys_serial_event.c: clear, read, copy. */
module SerialEvent {
  import opened Pipeline

  /** memset of the receive buffer. */
  method Clear(data: array<bv8>)
    modifies data
    ensures forall i :: 0 <= i < data.Length ==> data[i] == 0
  {
    for i := 0 to data.Length
      invariant forall j :: 0 <= j < i ==> data[j] == 0
    {
      data[i] := 0;
    }
  }

  /** Copies `n` bytes to the front of `dst`, as read and memcpy do. */
  method CopyFront(src: seq<bv8>, dst: array<bv8>, n: nat)
    requires n <= |src| && n <= dst.Length
    modifies dst
    ensures forall i :: 0 <= i < dst.Length ==> dst[i] == if i < n then src[i] else old(dst[i])
  {
    for i := 0 to n
      invariant forall j :: 0 <= j < dst.Length ==> dst[j] == if j < i then src[j] else old(dst[j])
    {
      dst[i] := src[i];
    }
  }

  /** One pass of the receive loop with a chunk read and a node allocated: whatever the buffers held before, the
      command starts with the chunk and zeros, as the transition `SerialAlloc` puts them into the node. */
  method FillCommand(data: array<bv8>, chunk: seq<bv8>, command: array<bv8>)
    requires data.Length == DATA_SIZE && command.Length == DATA_SIZE && data != command
    requires |chunk| <= CHUNK_SIZE
    modifies data, command
    ensures command[..|chunk|] == chunk
    ensures forall i :: |chunk| <= i < CHUNK_SIZE ==> command[i] == 0
    ensures forall i :: CHUNK_SIZE <= i < DATA_SIZE ==> command[i] == old(command[i])
    ensures command[..] == Padded(chunk) + old(command[CHUNK_SIZE..])
    ensures data[..|chunk|] == chunk && forall i :: |chunk| <= i < DATA_SIZE ==> data[i] == 0
  {
    Clear(data);
    CopyFront(chunk, data, |chunk|);
    assert data[..CHUNK_SIZE] == Padded(chunk);
    CopyFront(data[..], command, CHUNK_SIZE);
  }
}
