/**
 The server object: the resources of each descriptor, the table of descriptors marked for death, and the reaper.
 Each method is what one thread does while it holds the mutexes concerned.
 */
module SocketServers {
  import opened Bytes
  import opened Fields
  import opened Frames
  import opened Buffers
  import opened Interest
  import opened Outboxes
  import opened SocketUtils

  const TWO_64: int := 0x1_0000_0000_0000_0000

  // Descriptors are reaped after this many milliseconds.
  const GRACE := 60000

  /** The test of the reaper, in uint64_t arithmetic. */
  predicate Expired(mark: nat, now: nat) {
    (now - mark) % TWO_64 > GRACE
  }

  /**
   It is the intended test as long as the clock does not go back; a clock behind the mark makes a descriptor expire at
   once.
   */
  lemma ExpiredExact(mark: nat, now: nat)
    requires mark < TWO_64 && now < TWO_64
    ensures Expired(mark, now) <==> if now >= mark then now - mark > GRACE else mark - now < TWO_64 - GRACE
  {
    if now < mark {
      assert (now - mark) % TWO_64 == TWO_64 + now - mark;
    }
  }

  predicate AllMarked(zm: map<int, nat>, order: seq<int>) {
    forall i :: 0 <= i < |order| ==> order[i] in zm
  }

  /** Those of the marked descriptors, in the order of examination, that have expired when their turn comes. */
  function Reaped(zm: map<int, nat>, order: seq<int>, clock: seq<nat>): seq<int>
    requires |clock| == |order| && AllMarked(zm, order)
  {
    if order == [] then []
    else
      var n := |order| - 1;
      var prev := Reaped(zm, order[..n], clock[..n]);
      if Expired(zm[order[n]], clock[n]) then prev + [order[n]] else prev
  }

  ghost predicate NoDuplicates(s: seq<int>) {
    forall i, j :: 0 <= i < j < |s| ==> s[i] != s[j]
  }

  /** Exactly the expired descriptors are reaped, each once. */
  lemma {:induction false} ReapedExact(zm: map<int, nat>, order: seq<int>, clock: seq<nat>)
    requires |clock| == |order| && AllMarked(zm, order) && NoDuplicates(order)
    ensures forall i :: 0 <= i < |order| ==> (order[i] in Reaped(zm, order, clock) <==> Expired(zm[order[i]], clock[i]))
    ensures forall fd :: fd in Reaped(zm, order, clock) ==> fd in order
    ensures NoDuplicates(Reaped(zm, order, clock))
  {
    if order != [] {
      var n := |order| - 1;
      ReapedExact(zm, order[..n], clock[..n]);
      assert forall i :: 0 <= i < n ==> order[..n][i] == order[i];
      assert order[n] !in order[..n];
    }
  }

  /**
   What a pass reaps is what it is meant to reap, the descriptors marked more than the grace period ago, if and only if
   the clock is never behind a mark (or, what does not happen in practice, is behind it by nearly 2^64 milliseconds).
   */
  lemma ReaperIntended(zm: map<int, nat>, order: seq<int>, clock: seq<nat>)
    requires |clock| == |order| && AllMarked(zm, order) && NoDuplicates(order)
    requires forall i :: 0 <= i < |order| ==> zm[order[i]] < TWO_64 && clock[i] < TWO_64
    ensures (forall i :: 0 <= i < |order| ==>
               (order[i] in Reaped(zm, order, clock) <==> clock[i] - zm[order[i]] > GRACE))
            <==> forall i :: 0 <= i < |order| ==> clock[i] >= zm[order[i]] || zm[order[i]] - clock[i] >= TWO_64 - GRACE
  {
    ReapedExact(zm, order, clock);
    forall i | 0 <= i < |order|
      ensures (Expired(zm[order[i]], clock[i]) <==> clock[i] - zm[order[i]] > GRACE)
              <==> clock[i] >= zm[order[i]] || zm[order[i]] - clock[i] >= TWO_64 - GRACE
    {
      ExpiredExact(zm[order[i]], clock[i]);
    }
  }

  class SocketServer {
    var rrm: map<int, ReadR>
    var wrm: map<int, WriteR>
    const table: EventTable
    var zm: map<int, nat>
    // What the handler was called with, and which descriptors were closed, in order.
    var handled: seq<(int, Msg)>
    var closed: seq<int>

    /** The resources of a descriptor exist together, and no two descriptors share a buffer. */
    ghost predicate Valid()
      reads this, table, (set fd | fd in rrm :: rrm[fd].br)
    {
      && rrm.Keys == wrm.Keys <= table.events.Keys
      && (forall fd :: fd in rrm ==> rrm[fd].br.del == EOT)
      && (forall a, b :: a in rrm && b in rrm && a != b ==> rrm[a].br != rrm[b].br)
      && (forall a, b :: a in wrm && b in wrm && a != b ==> wrm[a].bw != wrm[b].bw)
    }

    constructor ()
      ensures Valid() && fresh(table)
      ensures rrm == map[] && wrm == map[] && zm == map[] && handled == [] && closed == [] && table.events == map[]
    {
      rrm, wrm, zm, handled, closed := map[], map[], map[], [], [];
      table := new EventTable();
    }

    /** Entries that exist stay as they are; the mask is set in any case. */
    method Add(nsfd: int)
      requires Valid()
      modifies this`rrm, this`wrm, table`events
      ensures Valid()
      ensures table.events == old(table.events)[nsfd := Mask(true, false)]
      ensures nsfd in old(rrm) ==> rrm == old(rrm) && wrm == old(wrm)
      ensures nsfd !in old(rrm) ==>
                && nsfd in rrm && rrm == old(rrm)[nsfd := rrm[nsfd]]
                && fresh(rrm[nsfd].br) && rrm[nsfd].br.buffer == [] && rrm[nsfd].valid
                && nsfd in wrm && wrm == old(wrm)[nsfd := wrm[nsfd]]
                && fresh(wrm[nsfd].bw) && wrm[nsfd].bw.buffer == [] && wrm[nsfd].valid
    {
      var nbr := new BufferedReader(EOT);
      if nsfd !in rrm {
        rrm := rrm[nsfd := ReadR(nbr, true)];
      }
      var nbw := new BufferedWriter();
      if nsfd !in wrm {
        wrm := wrm[nsfd := WriteR(nbw, true)];
      }
      table.events := table.events[nsfd := Mask(true, false)];
    }

    method AZombied(sfd: int, now: nat)
      modifies this`zm
      ensures zm == old(zm)[sfd := now]
    {
      zm := zm[sfd := now];
    }

    /**
     One read task. What is read goes through the reader of this descriptor alone; the handler gets the messages of
     the completed frames, in order. The task ends with EPOLLIN armed; or with the read side closed and marked, exactly
     if the remote end has closed or the last call has failed.
     */
    method Read(sfd: int, socket: Socket, now: nat) returns (ghost data: seq<Byte>)
      requires Valid() && (sfd in rrm ==> |rrm[sfd].br.buffer| + |socket.incoming| < TWO_32)
      modifies this`rrm, this`zm, this`handled, table
      modifies socket`incoming, socket`lastRead, set fd | fd in rrm :: rrm[fd].br
      ensures Valid() && wrm == old(wrm) && old(socket.incoming) == data + socket.incoming
      ensures sfd !in old(rrm) || !old(rrm[sfd].valid) ==>
                && data == [] && rrm == old(rrm) && zm == old(zm) && handled == old(handled)
                && table.events == old(table.events) && table.kernel == old(table.kernel)
      ensures sfd in old(rrm) && old(rrm[sfd].valid) ==>
                && rrm.Keys == old(rrm.Keys) && rrm[sfd].br == old(rrm[sfd].br)
                && rrm == old(rrm)[sfd := rrm[sfd]]
                && (forall k :: k in rrm && k != sfd ==> rrm[k].br.buffer == old(rrm[k].br.buffer))
                && var fed := Feed(old(rrm[sfd].br.buffer), data, EOT);
                && rrm[sfd].br.buffer == fed.residue
                && handled == old(handled) + Handled(sfd, Delivered(fed.frames))
                && (!rrm[sfd].valid <==> socket.lastRead.RemoteClosed? || socket.lastRead.ReadError?)
                && (rrm[sfd].valid <==> socket.lastRead.ReadAgain?)
                && if rrm[sfd].valid
                   then
                     && socket.incoming == [] && zm == old(zm)
                     && table.events == old(table.events)[sfd := old(table.At(sfd)).Armed(In)]
                     && table.kernel == Told(old(table.kernel), sfd, table.events[sfd])
                   else
                     && zm == old(zm)[sfd := now]
                     && table.events == old(table.events) && table.kernel == old(table.kernel)
    {
      data := [];
      if sfd in rrm && rrm[sfd].valid {
        var rr := rrm[sfd];
        var close;
        close, data := Receive(sfd, rr, socket);
        if close {
          rrm := rrm[sfd := rr.(valid := false)];
          AZombied(sfd, now);
        }
      }
    }

    /** Drains the socket, and calls the handler for what is complete. */
    method Receive(sfd: int, rr: ReadR, socket: Socket) returns (close: bool, ghost data: seq<Byte>)
      requires rr.br.del == EOT && |rr.br.buffer| + |socket.incoming| < TWO_32
      modifies this`handled, table, socket`incoming, socket`lastRead, rr.br
      ensures close <==> socket.lastRead.RemoteClosed? || socket.lastRead.ReadError?
      ensures !close <==> socket.lastRead.ReadAgain?
      ensures old(socket.incoming) == data + socket.incoming
      ensures var fed := Feed(old(rr.br.buffer), data, EOT);
              rr.br.buffer == fed.residue && handled == old(handled) + Handled(sfd, Delivered(fed.frames))
      ensures close ==> table.events == old(table.events) && table.kernel == old(table.kernel)
      ensures !close ==> socket.incoming == [] && table.events == old(table.events)[sfd := old(table.At(sfd)).Armed(In)]
      ensures !close ==> table.kernel == Told(old(table.kernel), sfd, table.events[sfd])
    {
      var before := |rr.br.fired|;
      close, data := ReadFromSfd(sfd, socket, rr.br, table);
      assert rr.br.fired[before..] == Feed(old(rr.br.buffer), data, EOT).frames;
      FramesAreShort(old(rr.br.buffer), data, EOT);
      Handle(sfd, rr.br.fired[before..]);
    }

    /** The callback of the reader, for each completed frame: restore the delimiter, unpack, call the handler. */
    method Handle(sfd: int, frames: seq<seq<Byte>>)
      requires forall i :: 0 <= i < |frames| ==> |frames[i]| < TWO_32
      modifies this`handled
      ensures handled == old(handled) + Handled(sfd, Delivered(frames))
    {
      var i := 0;
      while i < |frames|
        invariant 0 <= i <= |frames|
        invariant handled == old(handled) + Handled(sfd, Delivered(frames[..i]))
      {
        var frame := frames[i] + [EOT];
        var uuid, msg := UnpackFrame(frame, [], []);
        handled := handled + [(sfd, Msg(uuid, msg))];
        assert Msg(uuid, msg) == Unpack(frame) by {
          assert uuid == Unpack(frame).id && msg == Unpack(frame).body;
        }
        DeliveredAppend(frames[..i], [frames[i]]);
        assert frames[..i + 1] == frames[..i] + [frames[i]];
        assert Delivered([frames[i]]) == [Unpack(frame)];
        HandledSnoc(sfd, Delivered(frames[..i]), Unpack(frame));
        i := i + 1;
      }
      assert frames[..i] == frames;
    }

    /**
     One write task. It ends with an empty buffer; or with EPOLLOUT armed; or with the writer closed and marked, exactly
     if the last call has failed.
     */
    method Write(sfd: int, socket: Socket, now: nat) returns (ghost ns: seq<nat>, ghost lost: nat)
      requires Valid()
      modifies this`wrm, this`zm, table, socket`accepted, socket`lastWrite, set fd | fd in wrm :: wrm[fd].bw
      ensures Valid() && rrm == old(rrm)
      ensures sfd !in old(wrm) || !old(wrm[sfd].valid) ==>
                && wrm == old(wrm) && zm == old(zm) && table.events == old(table.events)
                && table.kernel == old(table.kernel) && socket.accepted == old(socket.accepted)
      ensures sfd in old(wrm) && old(wrm[sfd].valid) ==>
                && sfd in wrm && wrm == old(wrm)[sfd := wrm[sfd]] && wrm[sfd].bw == old(wrm[sfd].bw)
                && (forall k :: k in wrm && k != sfd ==> wrm[k].bw.buffer == old(wrm[k].bw.buffer))
                && WrittenAll(Outbox([], old(wrm[sfd].bw.buffer), old(socket.accepted), 0), ns)
                   == Outbox([], wrm[sfd].bw.buffer, socket.accepted, lost)
                && (!wrm[sfd].valid <==> old(wrm[sfd].bw.buffer) != [] && socket.lastWrite.WriteError?)
                && (wrm[sfd].valid && wrm[sfd].bw.buffer != []
                    <==> old(wrm[sfd].bw.buffer) != [] && socket.lastWrite.WriteAgain?)
                && zm == (if wrm[sfd].valid then old(zm) else old(zm)[sfd := now])
                && if wrm[sfd].valid && wrm[sfd].bw.buffer != []
                   then
                     && table.events == old(table.events)[sfd := old(table.At(sfd)).Armed(Out)]
                     && table.kernel == Told(old(table.kernel), sfd, table.events[sfd])
                   else table.events == old(table.events) && table.kernel == old(table.kernel)
    {
      ns, lost := [], 0;
      if sfd in wrm && wrm[sfd].valid {
        var wr := wrm[sfd];
        var end;
        end, ns, lost := WriteToSfd(sfd, socket, wr.bw, table);
        if end.Failed? {
          wrm := wrm[sfd := wr.(valid := false)];
          AZombied(sfd, now);
        }
      }
    }

    /** Appends one whole frame to a valid writer; arms EPOLLOUT whether or not the writer is valid. */
    method SendMsg(uuid: seq<Byte>, msg: seq<Byte>, sfd: int)
      requires Valid() && |uuid| >= ID_SIZE && ID_SIZE + |msg| + 1 < TWO_32
      modifies table, set fd | fd in wrm :: wrm[fd].bw
      ensures Valid()
      ensures sfd !in wrm ==> table.events == old(table.events) && table.kernel == old(table.kernel)
      ensures sfd in wrm ==>
                && wrm[sfd].bw.buffer == old(wrm[sfd].bw.buffer) + (if wrm[sfd].valid then Pack(Msg(uuid, msg)) else [])
                && table.events == old(table.events)[sfd := old(table.At(sfd)).Armed(Out)]
                && table.kernel == Told(old(table.kernel), sfd, table.events[sfd])
      ensures forall k :: k in wrm && k != sfd ==> wrm[k].bw.buffer == old(wrm[k].bw.buffer)
    {
      var mfs := ID_SIZE + |msg| + 1;
      var frame := new Byte[mfs];
      PackFrameVectors(uuid, msg, frame);
      var bytes := frame[..];
      assert bytes == Pack(Msg(uuid, msg));
      if sfd in wrm {
        var wr := wrm[sfd];
        if wr.valid {
          wr.bw.Write(bytes);
        }
        table.Arm(sfd, Out);
      }
    }

    /** Closes the descriptor and erases its entries from the three tables; the kernel forgets its mask. */
    method CloseNClean(sfd: int)
      requires Valid()
      modifies this`rrm, this`wrm, this`closed, table
      ensures Valid()
      ensures rrm == old(rrm) - {sfd} && wrm == old(wrm) - {sfd}
      ensures table.events == old(table.events) - {sfd} && table.kernel == old(table.kernel) - {sfd}
      ensures closed == old(closed) + [sfd]
    {
      closed := closed + [sfd];
      table.kernel := table.kernel - {sfd};
      if sfd in rrm {
        rrm := rrm - {sfd};
      }
      if sfd in wrm {
        wrm := wrm - {sfd};
      }
      table.events := table.events - {sfd};
    }

    /** The first loop of a pass, over the marks in an unspecified order, with the clock read anew for each. */
    method CloseExpired(order: seq<int>, clock: seq<nat>) returns (zv: seq<int>)
      requires Valid() && |clock| == |order| && AllMarked(zm, order)
      modifies this`rrm, this`wrm, this`closed, table
      ensures Valid() && zv == Reaped(zm, order, clock) && closed == old(closed) + zv
      ensures rrm == old(rrm) - Elements(zv) && wrm == old(wrm) - Elements(zv)
      ensures table.events == old(table.events) - Elements(zv) && table.kernel == old(table.kernel) - Elements(zv)
    {
      zv := [];
      var i := 0;
      while i < |order|
        invariant 0 <= i <= |order| && Valid()
        invariant zv == Reaped(zm, order[..i], clock[..i]) && closed == old(closed) + zv
        invariant rrm == old(rrm) - Elements(zv) && wrm == old(wrm) - Elements(zv)
        invariant table.events == old(table.events) - Elements(zv) && table.kernel == old(table.kernel) - Elements(zv)
      {
        assert order[..i + 1][..i] == order[..i] && clock[..i + 1][..i] == clock[..i];
        if Expired(zm[order[i]], clock[i]) {
          CloseNClean(order[i]);
          assert Elements(zv + [order[i]]) == Elements(zv) + {order[i]};
          zv := zv + [order[i]];
        }
        i := i + 1;
      }
      assert order[..i] == order && clock[..i] == clock;
    }

    /**
     One pass of the reaper. It closes exactly the descriptors that have expired when they are examined, erases them
     from every table, and touches no other entry.
     */
    method ReapPass(order: seq<int>, clock: seq<nat>)
      requires Valid() && |clock| == |order| && NoDuplicates(order)
      requires AllMarked(zm, order) && zm.Keys <= Elements(order)
      modifies this`rrm, this`wrm, this`zm, this`closed, table
      ensures Valid()
      ensures var dead := Reaped(old(zm), order, clock);
              && closed == old(closed) + dead
              && zm == old(zm) - Elements(dead)
              && rrm == old(rrm) - Elements(dead)
              && wrm == old(wrm) - Elements(dead)
              && table.events == old(table.events) - Elements(dead)
              && table.kernel == old(table.kernel) - Elements(dead)
    {
      var zv := CloseExpired(order, clock);
      var i := 0;
      while i < |zv|
        modifies this`zm
        invariant 0 <= i <= |zv|
        invariant zm == old(zm) - Elements(zv[..i])
      {
        assert Elements(zv[..i + 1]) == Elements(zv[..i]) + {zv[i]};
        zm := zm - {zv[i]};
        i := i + 1;
      }
      assert zv[..i] == zv;
    }
  }

  function Handled(sfd: int, ms: seq<Msg>): seq<(int, Msg)> {
    seq(|ms|, i requires 0 <= i < |ms| => (sfd, ms[i]))
  }

  lemma HandledSnoc(sfd: int, ms: seq<Msg>, m: Msg)
    ensures Handled(sfd, ms + [m]) == Handled(sfd, ms) + [(sfd, m)]
  {
  }

  function Elements(s: seq<int>): set<int> {
    set x | x in s
  }
}
