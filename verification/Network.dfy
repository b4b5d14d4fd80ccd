/**
 Processes joined by wires. A wire is a lossless byte stream in one direction: what an endpoint has read is always
 a prefix of what the socket of the endpoint at the other end has taken.
 */
module Network {
  import opened Bytes
  import opened Frames
  import Outboxes
  import opened Transport
  import opened History

  type Pid = int

  datatype End = End(pid: Pid, fd: Fd)

  type World = map<Pid, State>

  /** For each reading end, the end whose bytes it reads; two entries make a connection. */
  type Wires = map<End, End>

  ghost predicate Has(w: World, e: End) {
    e.pid in w && e.fd in w[e.pid].conns
  }

  ghost function ConnOf(w: World, e: End): Conn
    requires Has(w, e)
  {
    w[e.pid].conns[e.fd]
  }

  datatype Move = Move(pid: Pid, l: Label)

  /** A process may take any of its steps, but reads only what the other end's socket has taken and is not yet read. */
  ghost predicate CanMove(w: World, wires: Wires, m: Move) {
    && m.pid in w && Enabled(w[m.pid], m.l)
    && (m.l.Thread? && m.l.a.Receive? ==>
          var e := End(m.pid, w[m.pid].threads[m.l.t].fd);
          && e in wires && Has(w, wires[e])
          && IsPrefix(ConnOf(w, e).rd.inbox.received + m.l.a.chunk, ConnOf(w, wires[e]).wr.outbox.accepted))
  }

  ghost function Moved(w: World, wires: Wires, m: Move): World
    requires CanMove(w, wires, m)
  {
    w[m.pid := Apply(w[m.pid], m.l)]
  }

  ghost predicate IsHistory(ws: seq<World>, wires: Wires, ms: seq<Move>) {
    && |ws| == |ms| + 1
    && (forall p :: p in ws[0] ==> ws[0][p] == INITIAL)
    && forall i :: 0 <= i < |ms| ==> CanMove(ws[i], wires, ms[i]) && ws[i + 1] == Moved(ws[i], wires, ms[i])
  }

  ghost predicate WireOk(w: World, wires: Wires, e: End) {
    e in wires && Has(w, e) && ConnOf(w, e).rd.inbox.received != [] ==>
      Has(w, wires[e]) && IsPrefix(ConnOf(w, e).rd.inbox.received, ConnOf(w, wires[e]).wr.outbox.accepted)
  }

  ghost predicate WorldOk(w: World, wires: Wires) {
    && (forall p :: p in w ==> Streams(w[p]))
    && (forall e :: WireOk(w, wires, e))
  }

  lemma MoveKeeps(w: World, wires: Wires, m: Move)
    requires WorldOk(w, wires) && CanMove(w, wires, m)
    ensures WorldOk(Moved(w, wires, m), wires)
  {
    KeepsStreams(w[m.pid], m.l);
    forall e
      ensures WireOk(Moved(w, wires, m), wires, e)
    {
      assert WireOk(w, wires, e);
      MoveKeepsWire(w, wires, m, Moved(w, wires, m), e);
    }
  }

  lemma MoveKeepsWire(w: World, wires: Wires, m: Move, w': World, e: End)
    requires CanMove(w, wires, m) && w' == Moved(w, wires, m) && WireOk(w, wires, e)
    ensures WireOk(w', wires, e)
  {
    if e in wires {
      EndStep(w, wires, m, e);
      EndStep(w, wires, m, wires[e]);
    }
  }

  /** How one move looks from one end. */
  lemma EndStep(w: World, wires: Wires, m: Move, e: End)
    requires CanMove(w, wires, m)
    ensures var w' := Moved(w, wires, m);
            && (Has(w, e) ==>
                 && Has(w', e)
                 && IsPrefix(ConnOf(w, e).wr.outbox.accepted, ConnOf(w', e).wr.outbox.accepted)
                 && ConnOf(w', e).rd.inbox.received == ConnOf(w, e).rd.inbox.received +
                    (if m.pid == e.pid && m.l.Thread? && m.l.a.Receive? && w[e.pid].threads[m.l.t].fd == e.fd
                     then m.l.a.chunk else []))
            && (Has(w', e) && !Has(w, e) ==> ConnOf(w', e).rd.inbox.received == [])
  {
    if e.pid == m.pid {
      OutboxStep(w[e.pid], m.l, e.fd);
    }
  }

  lemma {:induction false} HistoryOk(ws: seq<World>, wires: Wires, ms: seq<Move>, i: nat)
    requires IsHistory(ws, wires, ms) && i <= |ms|
    ensures WorldOk(ws[i], wires)
  {
    if i > 0 {
      HistoryOk(ws, wires, ms, i - 1);
      MoveKeeps(ws[i - 1], wires, ms[i - 1]);
    }
  }

  // ---------- One process of a history ----------

  function StateIn(w: World, p: Pid): State {
    if p in w then w[p] else INITIAL
  }

  /** The states that a process goes through in the first i moves, and the steps it takes. */
  function StatesOf(ws: seq<World>, ms: seq<Move>, i: nat, p: Pid): (ss: seq<State>)
    requires i <= |ms| < |ws|
    ensures |ss| == |StepsOf(ms, i, p)| + 1
  {
    if i == 0 then [StateIn(ws[0], p)]
    else StatesOf(ws, ms, i - 1, p) + if ms[i - 1].pid == p then [StateIn(ws[i], p)] else []
  }

  function StepsOf(ms: seq<Move>, i: nat, p: Pid): seq<Label>
    requires i <= |ms|
  {
    if i == 0 then [] else StepsOf(ms, i - 1, p) + if ms[i - 1].pid == p then [ms[i - 1].l] else []
  }

  /** What one process does in a history is a run. */
  lemma {:induction false} ProcessRuns(ws: seq<World>, wires: Wires, ms: seq<Move>, i: nat, p: Pid)
    requires IsHistory(ws, wires, ms) && i <= |ms|
    ensures var ss, ls := StatesOf(ws, ms, i, p), StepsOf(ms, i, p);
            IsRun(ss, ls) && ss[|ls|] == StateIn(ws[i], p)
  {
    if i == 0 {
      assert StateIn(ws[0], p) == INITIAL;
    } else {
      var j := i - 1;
      var ss, ls := StatesOf(ws, ms, j, p), StepsOf(ms, j, p);
      ProcessRuns(ws, wires, ms, j, p);
      ProcessStep(ws[j], wires, ms[j], ws[i], p);
      if ms[j].pid == p {
        RunExtends(ss, ls, ms[j].l, StateIn(ws[i], p));
        assert StatesOf(ws, ms, i, p) == ss + [StateIn(ws[i], p)] && StepsOf(ms, i, p) == ls + [ms[j].l];
      } else {
        assert StatesOf(ws, ms, i, p) == ss && StepsOf(ms, i, p) == ls;
      }
    }
  }

  lemma ProcessStep(w: World, wires: Wires, m: Move, w': World, p: Pid)
    requires CanMove(w, wires, m) && w' == Moved(w, wires, m)
    ensures m.pid == p ==> Enabled(StateIn(w, p), m.l) && StateIn(w', p) == Apply(StateIn(w, p), m.l)
    ensures m.pid != p ==> StateIn(w', p) == StateIn(w, p)
  {
  }

  lemma RunExtends(ss: seq<State>, ls: seq<Label>, l: Label, s: State)
    requires IsRun(ss, ls) && Enabled(ss[|ls|], l) && s == Apply(ss[|ls|], l)
    ensures IsRun(ss + [s], ls + [l])
  {
  }

  /** The messages that the threads of a process have appended for an end in the first i moves. */
  ghost function SentAt(ws: seq<World>, ms: seq<Move>, i: nat, e: End): seq<Msg>
    requires i <= |ms| < |ws|
  {
    var ls := StepsOf(ms, i, e.pid);
    Sent(StatesOf(ws, ms, i, e.pid), ls, |ls|, e.fd)
  }

  /** No write call of the process at this end has taken less than its slice. */
  ghost predicate NoShortWrite(ws: seq<World>, ms: seq<Move>, i: nat, e: End)
    requires i <= |ms| < |ws|
  {
    var ss, ls := StatesOf(ws, ms, i, e.pid), StepsOf(ms, i, e.pid);
    forall k :: 0 <= k < |ls| ==> !ShortWrite(ss[k], ls[k], e.fd)
  }

  /** The sending end, in terms of the steps of its process. */
  lemma SenderIs(ws: seq<World>, wires: Wires, ms: seq<Move>, i: nat, e: End)
    requires IsHistory(ws, wires, ms) && i <= |ms| && Has(ws[i], e)
    ensures var o := ConnOf(ws[i], e).wr.outbox;
            o.sent == SentAt(ws, ms, i, e) && (o.lost == 0 <==> NoShortWrite(ws, ms, i, e))
  {
    ProcessRuns(ws, wires, ms, i, e.pid);
    var ss, ls := StatesOf(ws, ms, i, e.pid), StepsOf(ms, i, e.pid);
    SentIs(ss, ls, |ls|, e.fd);
    IntactUnlessShort(ss, ls, |ls|, e.fd);
  }

  // ---------- End to end ----------

  /**
   End to end, in every history of every network: if no write call of the sender has come up short and no message that
   its threads have appended contains the delimiter, the messages delivered at the other end are a prefix of those
   appended at this end, in the order in which they were appended.
   */
  lemma DeliveredIsPrefixOfSent(ws: seq<World>, wires: Wires, ms: seq<Move>, i: nat, e: End)
    requires IsHistory(ws, wires, ms) && i <= |ms|
    requires e in wires && Has(ws[i], e) && Has(ws[i], wires[e])
    ensures NoShortWrite(ws, ms, i, wires[e]) && AllClean(SentAt(ws, ms, i, wires[e])) ==>
              IsPrefix(ConnOf(ws[i], e).rd.inbox.delivered, SentAt(ws, ms, i, wires[e]))
  {
    HistoryOk(ws, wires, ms, i);
    SenderIs(ws, wires, ms, i, wires[e]);
    var o, r := ConnOf(ws[i], wires[e]).wr.outbox, ConnOf(ws[i], e).rd.inbox;
    assert WireOk(ws[i], wires, e);
    if NoShortWrite(ws, ms, i, wires[e]) && AllClean(o.sent) {
      assert IsPrefix(r.received, Stream(o.sent)) by {
        assert o.accepted == (o.accepted + o.buffer)[..|o.accepted|];
        assert r.received == o.accepted[..|r.received|] == Stream(o.sent)[..|r.received|];
      }
      DeliveryPrefix(r.received, o.sent);
    }
  }

  /**
   When writer, wire and reader are empty, the receiver has exactly the messages that the sender's threads have appended
   if and only if no write call of the sender came up short and no message contains the delimiter.
   */
  lemma DeliveredIsSent(ws: seq<World>, wires: Wires, ms: seq<Move>, i: nat, e: End)
    requires IsHistory(ws, wires, ms) && i <= |ms|
    requires e in wires && Has(ws[i], e) && Has(ws[i], wires[e])
    requires ConnOf(ws[i], wires[e]).wr.outbox.buffer == []
    requires ConnOf(ws[i], e).rd.inbox.received == ConnOf(ws[i], wires[e]).wr.outbox.accepted
    ensures ConnOf(ws[i], e).rd.inbox.delivered == SentAt(ws, ms, i, wires[e])
            <==> NoShortWrite(ws, ms, i, wires[e]) && AllClean(SentAt(ws, ms, i, wires[e]))
    ensures NoShortWrite(ws, ms, i, wires[e]) ==> ConnOf(ws[i], e).rd.inbox.buffer == []
  {
    HistoryOk(ws, wires, ms, i);
    SenderIs(ws, wires, ms, i, wires[e]);
    var o, r := ConnOf(ws[i], wires[e]).wr.outbox, ConnOf(ws[i], e).rd.inbox;
    assert o.accepted + o.buffer == o.accepted;
    assert Outboxes.Conserves(o) && InboxOk(r);
    if o.lost == 0 {
      FeedStream(o.sent);
      DeliveryExact(o.sent);
    }
    if r.delivered == o.sent {
      DeliveryDetermines(r.received, o.sent);
    }
  }
}
