/** The MSP reply stream (`sbuf_t`): the bytes written so far and the
    room left before the end of the buffer. */
module StreamBuffer {
  import opened Common

  class Stream {
    /** Everything written to the stream, in order. */
    var written: seq<byte>
    /** `sbufBytesRemaining`: the room left before the buffer's end. */
    var remaining: nat

    constructor (capacity: nat)
      ensures written == [] && remaining == capacity
    {
      written := [];
      remaining := capacity;
    }

    /** `sbufWriteU8`. The C routine does not check the end of the buffer,
        so its callers must leave room. */
    method WriteU8(b: byte)
      requires remaining >= 1
      modifies this
      ensures written == old(written) + [b]
      ensures remaining == old(remaining) - 1
    {
      written := written + [b];
      remaining := remaining - 1;
    }

    /** `sbufWriteData`: copies `data` to the stream, unchecked as well. */
    method WriteData(data: seq<byte>)
      requires remaining >= |data|
      modifies this
      ensures written == old(written) + data
      ensures remaining == old(remaining) - |data|
    {
      written := written + data;
      remaining := remaining - |data|;
    }
  }
}
