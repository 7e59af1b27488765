/** The byte buffers that the pipeline fills, empties and uses again. */
module Buffers {
  import opened Seqs

  /** A growable byte buffer: BytesMut or Vec<u8>. */
  class Buffer {
    var data: Bytes

    constructor ()
      ensures data == []
    {
      data := [];
    }
  }
}
