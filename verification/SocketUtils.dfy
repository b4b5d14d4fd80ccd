/** Packing and unpacking frames, and the loops that drain a socket into a reader and a writer into a socket. */
module SocketUtils {
  import opened Bytes
  import opened Fields
  import opened Frames
  import opened Buffers
  import opened Interest
  import opened Outboxes

  method PackFrameChars(id: array<Byte>, msg: array<Byte>, msgSize: nat, result: array<Byte>)
    requires id.Length >= ID_SIZE && msgSize <= msg.Length
    requires result.Length >= ID_SIZE + msgSize + 1 && ID_SIZE + msgSize < TWO_32
    requires result != id && result != msg
    modifies result
    ensures result[..] == Pack(Msg(id[..], msg[..msgSize])) + old(result[ID_SIZE + msgSize + 1..])
  {
    var ri := 0;
    var i := 0;
    while i < ID_SIZE
      invariant 0 <= i == ri <= ID_SIZE
      invariant forall k :: 0 <= k < i ==> result[k] == id[k]
      invariant forall k :: ri <= k < result.Length ==> result[k] == old(result[k])
    {
      result[ri] := id[i];
      ri := ri + 1;
      i := i + 1;
    }
    i := 0;
    while i < msgSize
      invariant 0 <= i <= msgSize && ri == ID_SIZE + i
      invariant forall k :: 0 <= k < ID_SIZE ==> result[k] == id[k]
      invariant forall k :: 0 <= k < i ==> result[ID_SIZE + k] == msg[k]
      invariant forall k :: ri <= k < result.Length ==> result[k] == old(result[k])
    {
      result[ri] := msg[i];
      ri := ri + 1;
      i := i + 1;
    }
    result[ri] := EOT;
  }

  method PackFrameVectors(id: seq<Byte>, msg: seq<Byte>, result: array<Byte>)
    requires |id| >= ID_SIZE
    requires result.Length >= ID_SIZE + |msg| + 1 && ID_SIZE + |msg| < TWO_32
    modifies result
    ensures result[..] == Pack(Msg(id, msg)) + old(result[ID_SIZE + |msg| + 1..])
  {
    var ri := 0;
    var i := 0;
    while i < ID_SIZE
      invariant 0 <= i == ri <= ID_SIZE
      invariant forall k :: 0 <= k < i ==> result[k] == id[k]
      invariant forall k :: ri <= k < result.Length ==> result[k] == old(result[k])
    {
      result[ri] := id[i];
      ri := ri + 1;
      i := i + 1;
    }
    i := 0;
    while i < |msg|
      invariant 0 <= i <= |msg| && ri == ID_SIZE + i
      invariant forall k :: 0 <= k < ID_SIZE ==> result[k] == id[k]
      invariant forall k :: 0 <= k < i ==> result[ID_SIZE + k] == msg[k]
      invariant forall k :: ri <= k < result.Length ==> result[k] == old(result[k])
    {
      result[ri] := msg[i];
      ri := ri + 1;
      i := i + 1;
    }
    result[ri] := EOT;
  }

  /** Pushes the parts of a frame at the back of the two vectors given. */
  method UnpackFrame(msg: seq<Byte>, uuid0: seq<Byte>, msg0: seq<Byte>) returns (uuid: seq<Byte>, body: seq<Byte>)
    requires 0 < |msg| <= TWO_32
    ensures uuid == uuid0 + Unpack(msg).id && body == msg0 + Unpack(msg).body
  {
    uuid, body := uuid0, msg0;
    var i := 0;
    while i < |msg| - 1
      invariant 0 <= i <= |msg| - 1
      invariant uuid == uuid0 + msg[..Min(i, ID_SIZE)]
      invariant body == msg0 + msg[Min(i, ID_SIZE)..i]
    {
      if i < ID_SIZE {
        uuid := uuid + [msg[i]];
      } else {
        body := body + [msg[i]];
      }
      i := i + 1;
    }
  }

  // What belongs to a descriptor; each of the two comes with a mutex.
  datatype ReadR = ReadR(br: BufferedReader, valid: bool)
  datatype WriteR = WriteR(bw: BufferedWriter, valid: bool)

  datatype WriteAnswer = Took(n: nat) | WriteAgain | WriteError
  datatype ReadAnswer = Bytes(data: seq<Byte>) | RemoteClosed | ReadAgain | ReadError

  /** The non-blocking socket: which answer it gives is the kernel's choice. */
  class Socket {
    var accepted: seq<Byte>
    var incoming: seq<Byte>
    // The answers to the last calls of write and read.
    ghost var lastWrite: WriteAnswer
    ghost var lastRead: ReadAnswer

    constructor (incoming: seq<Byte>)
      ensures this.incoming == incoming && accepted == []
    {
      this.incoming := incoming;
      accepted := [];
      lastWrite, lastRead := Took(0), ReadAgain;
    }

    method Write(data: seq<Byte>) returns (a: WriteAnswer)
      modifies this`accepted, this`lastWrite
      ensures lastWrite == a
      ensures a.Took? ==> a.n <= |data| && accepted == old(accepted) + data[..a.n]
      ensures !a.Took? ==> accepted == old(accepted)
    {
      var n: nat :| n <= |data|;
      a :| a in {Took(n), WriteAgain, WriteError};
      if a.Took? {
        accepted := accepted + data[..n];
      }
      lastWrite := a;
    }

    method Read(size: nat) returns (a: ReadAnswer)
      requires size > 0
      modifies this`incoming, this`lastRead
      ensures lastRead == a
      ensures a.Bytes? ==> 0 < |a.data| <= size && old(incoming) == a.data + incoming
      ensures !a.Bytes? ==> incoming == old(incoming)
      ensures a.ReadAgain? || a.RemoteClosed? ==> incoming == []
    {
      if incoming == [] {
        a :| a in {RemoteClosed, ReadAgain, ReadError};
      } else {
        var n: nat :| 0 < n <= size && n <= |incoming|;
        a :| a in {Bytes(incoming[..n]), ReadError};
        if a.Bytes? {
          incoming := incoming[n..];
        }
      }
      lastRead := a;
    }
  }

  /** `epoll_ctl` with EPOLL_CTL_MOD, which fails, without further notice, for a descriptor that is not registered. */
  function Told(kernel: map<int, Mask>, fd: int, mask: Mask): map<int, Mask> {
    if fd in kernel then kernel[fd := mask] else kernel
  }

  /** `sfd_events` and the masks the kernel holds for the registered descriptors. */
  class EventTable {
    var events: map<int, Mask>
    var kernel: map<int, Mask>

    constructor ()
      ensures events == map[] && kernel == map[]
    {
      events, kernel := map[], map[];
    }

    /** `operator[]` supplies 0 for a missing entry. */
    function At(fd: int): Mask
      reads this`events
    {
      if fd in events then events[fd] else NOTHING
    }

    method SetEpoll(fd: int, mask: Mask)
      modifies this`kernel
      ensures kernel == Told(old(kernel), fd, mask)
    {
      if fd in kernel {
        kernel := kernel[fd := mask];
      }
    }

    /** The critical section of `e_mutex` that turns a bit on with `|=`. */
    method Arm(fd: int, bit: Bit)
      modifies this
      ensures events == old(events)[fd := old(At(fd)).Armed(bit)]
      ensures kernel == Told(old(kernel), fd, events[fd])
    {
      events := events[fd := At(fd).Armed(bit)];
      SetEpoll(fd, events[fd]);
    }

    /** The critical section of the epoll callbacks, which is meant to turn a bit off, with `^=`. */
    method Toggle(fd: int, bit: Bit)
      modifies this
      ensures events == old(events)[fd := old(At(fd)).Toggled(bit)]
      ensures kernel == Told(old(kernel), fd, events[fd])
    {
      events := events[fd := At(fd).Toggled(bit)];
      SetEpoll(fd, events[fd]);
    }
  }

  /**
   Drains the socket into the reader, until it answers anything but data; `data` is what was read. The read side is
   closed exactly if the remote end has closed or the call has failed; then no mask is touched. Otherwise nothing is
   left to read and EPOLLIN is armed again.
   */
  method ReadFromSfd(fd: int, socket: Socket, reader: BufferedReader, table: EventTable)
    returns (closed: bool, ghost data: seq<Byte>)
    modifies socket`incoming, socket`lastRead, reader, table
    ensures closed <==> socket.lastRead.RemoteClosed? || socket.lastRead.ReadError?
    ensures !closed <==> socket.lastRead.ReadAgain?
    ensures old(socket.incoming) == data + socket.incoming
    ensures var fed := Feed(old(reader.buffer), data, reader.del);
            reader.buffer == fed.residue && reader.fired == old(reader.fired) + fed.frames
    ensures closed ==> table.events == old(table.events) && table.kernel == old(table.kernel)
    ensures !closed ==> socket.incoming == [] && table.events == old(table.events)[fd := old(table.At(fd)).Armed(In)]
    ensures !closed ==> table.kernel == Told(old(table.kernel), fd, table.events[fd])
  {
    var keepReading := true;
    var setEpollin := true;
    data := [];
    while keepReading
      invariant old(socket.incoming) == data + socket.incoming
      invariant var fed := Feed(old(reader.buffer), data, reader.del);
                reader.buffer == fed.residue && reader.fired == old(reader.fired) + fed.frames
      invariant table.events == old(table.events) && table.kernel == old(table.kernel)
      invariant keepReading ==> setEpollin
      invariant !keepReading ==> (setEpollin <==> socket.lastRead.ReadAgain?) && !socket.lastRead.Bytes?
      invariant !keepReading && setEpollin ==> socket.incoming == []
      decreases |socket.incoming|, keepReading
    {
      var answer := socket.Read(SLICE);
      match answer
      case Bytes(chunk) =>
        FeedAppend(old(reader.buffer), data, chunk, reader.del);
        reader.Read(chunk);
        data := data + chunk;
      case ReadAgain =>
        keepReading := false;
      case RemoteClosed =>
        setEpollin := false;
        keepReading := false;
      case ReadError =>
        setEpollin := false;
        keepReading := false;
    }
    closed := !setEpollin;
    if setEpollin {
      table.Arm(fd, In);
    }
  }

  datatype DrainEnd = Emptied | Blocked | Failed

  /** One pass of the drain loop: offer the oldest slice, and clear all of it if the call did not fail. */
  method WriteSlice(socket: Socket, writer: BufferedWriter) returns (r: WriteAnswer, bSize: nat)
    requires writer.buffer != []
    modifies socket`accepted, socket`lastWrite, writer
    ensures socket.lastWrite == r
    ensures bSize == Min(SLICE, |old(writer.buffer)|)
    ensures r.Took? ==>
              && r.n <= bSize
              && socket.accepted == old(socket.accepted) + old(writer.buffer)[..r.n]
              && writer.buffer == old(writer.buffer)[bSize..]
    ensures !r.Took? ==> socket.accepted == old(socket.accepted) && writer.buffer == old(writer.buffer)
  {
    bSize := SLICE;
    var size := writer.Size();
    if size < bSize {
      bSize := size;
    }
    var rBuff := new Byte[bSize];
    writer.IRead(rBuff, bSize);
    var slice := writer.buffer[..bSize];
    assert rBuff[..] == slice;
    r := socket.Write(rBuff[..]);
    if r.Took? {
      assert slice[..r.n] == writer.buffer[..r.n];
      writer.Clear(bSize);
    }
  }

  /**
   Drains the writer into the socket, slice by slice; `ns` says what each call took. The bytes the socket has taken
   followed by the bytes left are what they were before if and only if no byte of an offered slice was refused.
   The loop ends with an empty buffer; or with EPOLLOUT armed, exactly if the last call would have blocked; or with a
   failure, exactly if the last call failed.
   */
  method WriteToSfd(fd: int, socket: Socket, writer: BufferedWriter, table: EventTable)
    returns (end: DrainEnd, ghost ns: seq<nat>, ghost lost: nat)
    modifies socket`accepted, socket`lastWrite, writer, table
    ensures old(writer.buffer) == [] ==> end.Emptied? && socket.lastWrite == old(socket.lastWrite)
    ensures old(writer.buffer) != [] ==>
              && (end.Emptied? <==> socket.lastWrite.Took?)
              && (end.Blocked? <==> socket.lastWrite.WriteAgain?)
              && (end.Failed? <==> socket.lastWrite.WriteError?)
    ensures WrittenAll(Outbox([], old(writer.buffer), old(socket.accepted), 0), ns)
            == Outbox([], writer.buffer, socket.accepted, lost)
    ensures socket.accepted + writer.buffer == old(socket.accepted) + old(writer.buffer) <==> lost == 0
    ensures end.Emptied? <==> writer.buffer == []
    ensures end.Blocked? ==> table.events == old(table.events)[fd := old(table.At(fd)).Armed(Out)]
    ensures end.Blocked? ==> table.kernel == Told(old(table.kernel), fd, table.events[fd])
    ensures !end.Blocked? ==> table.events == old(table.events) && table.kernel == old(table.kernel)
  {
    ghost var o := Outbox([], writer.buffer, socket.accepted, 0);
    ghost var now := o;
    end, ns := Emptied, [];
    var keepWriting := true;
    var size := writer.Size();
    while keepWriting && size > 0
      invariant size == |writer.buffer|
      invariant WrittenAll(o, ns) == now && now.sent == []
      invariant now.buffer == writer.buffer && now.accepted == socket.accepted
      invariant old(writer.buffer) == [] ==> size == 0 && socket.lastWrite == old(socket.lastWrite)
      invariant keepWriting && writer.buffer != old(writer.buffer) ==> socket.lastWrite.Took?
      invariant end.Blocked? ==> socket.lastWrite.WriteAgain?
      invariant end.Failed? ==> socket.lastWrite.WriteError?
      invariant keepWriting ==> end == Emptied
      invariant !keepWriting ==> end != Emptied && size > 0
      invariant end.Blocked? ==> table.events == old(table.events)[fd := old(table.At(fd)).Armed(Out)]
      invariant end.Blocked? ==> table.kernel == Told(old(table.kernel), fd, table.events[fd])
      invariant !end.Blocked? ==> table.events == old(table.events) && table.kernel == old(table.kernel)
      decreases size, keepWriting
    {
      var r, bSize := WriteSlice(socket, writer);
      match r {
        case Took(n) =>
          WrittenSnoc(o, ns, n);
          ns := ns + [n];
          now := Written(now, n);
        case WriteAgain =>
          table.Arm(fd, Out);
          end := Blocked;
          keepWriting := false;
        case WriteError =>
          end := Failed;
          keepWriting := false;
      }
      size := writer.Size();
    }
    lost := now.lost;
    WritesConserve(o, ns);
  }
}
