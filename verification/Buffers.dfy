/** The two buffers of a connection, as the objects the drain loops update in place. */
module Buffers {
  import opened Bytes
  import opened Fields

  class BufferedReader {
    var buffer: seq<Byte>
    const del: Byte
    // The frames handed to the callback, in order.
    var fired: seq<seq<Byte>>

    constructor (del: Byte)
      ensures this.del == del && buffer == [] && fired == []
    {
      this.del := del;
      buffer := [];
      fired := [];
    }

    method Read(data: seq<Byte>)
      modifies this
      ensures var fed := Feed(old(buffer), data, del);
              buffer == fed.residue && fired == old(fired) + fed.frames
    {
      var i := 0;
      assert data[..0] == [];
      while i < |data|
        invariant 0 <= i <= |data|
        invariant var fed := Feed(old(buffer), data[..i], del);
                  buffer == fed.residue && fired == old(fired) + fed.frames
      {
        assert data[..i + 1] == data[..i] + [data[i]];
        FeedSnoc(old(buffer), data[..i], data[i], del);
        if data[i] != del {
          buffer := buffer + [data[i]];
        } else {
          fired := fired + [buffer];
          buffer := [];
        }
        i := i + 1;
      }
      assert data[..i] == data;
    }
  }

  class BufferedWriter {
    var buffer: seq<Byte>

    constructor ()
      ensures buffer == []
    {
      buffer := [];
    }

    method Write(frame: seq<Byte>)
      requires |frame| < TWO_32
      modifies this
      ensures buffer == old(buffer) + frame
    {
      var i := 0;
      while i < |frame|
        invariant 0 <= i <= |frame|
        invariant buffer == old(buffer) + frame[..i]
      {
        buffer := buffer + [frame[i]];
        i := i + 1;
      }
    }

    /** Copies the oldest bytes out without removing them. */
    method IRead(chunk: array<Byte>, size: nat)
      requires size <= chunk.Length && size <= |buffer| && size < TWO_32
      modifies chunk
      ensures chunk[..] == buffer[..size] + old(chunk[size..])
    {
      var i := 0;
      while i < size
        invariant 0 <= i <= size
        invariant chunk[..i] == buffer[..i]
        invariant chunk[i..] == old(chunk[i..])
      {
        chunk[i] := buffer[i];
        i := i + 1;
      }
    }

    method Clear(size: nat)
      requires size <= |buffer|
      modifies this
      ensures buffer == old(buffer)[size..]
    {
      buffer := buffer[size..];
    }

    method Size() returns (n: nat)
      ensures n == |buffer|
    {
      n := |buffer|;
    }
  }
}
