/** The save-state stream that `Memory`, `CPU`, the mapper and `PPU` write to
    and read from. Its own class is not part of this model; what the model
    relies on is only that writes append and reads consume from a cursor. */
module Buffers {
  import opened BitOps

  class ByteBuffer {
    var data: seq<short>
    var pos: nat

    constructor (initial: seq<short>)
      ensures data == initial && pos == 0
    {
      data := initial;
      pos := 0;
    }

    method PutByte(v: short)
      modifies this`data
      ensures data == old(data) + [v]
    {
      data := data + [v];
    }

    method PutBytes(vs: seq<short>)
      modifies this`data
      ensures data == old(data) + vs
    {
      data := data + vs;
    }

    method ReadByte() returns (v: short)
      requires pos < |data|
      modifies this`pos
      ensures v == data[old(pos)] && pos == old(pos) + 1
    {
      v := data[pos];
      pos := pos + 1;
    }

    method ReadBytes(n: nat) returns (vs: seq<short>)
      requires pos + n <= |data|
      modifies this`pos
      ensures vs == data[old(pos)..old(pos) + n] && pos == old(pos) + n
    {
      vs := data[pos..pos + n];
      pos := pos + n;
    }
  }
}
