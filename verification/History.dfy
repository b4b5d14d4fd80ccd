/**
 What the state of a connection says about the steps that were taken: what was sent, taken and read, and what was
 closed. And that no thread is ever stuck.
 */
module History {
  import opened Bytes
  import opened Fields
  import opened Frames
  import opened Interest
  import Outboxes
  import opened Transport

  type Op = Outboxes.Op

  /** The message a thread is about to append, if the step appends one to this descriptor. */
  ghost function Appends(s: State, l: Label, fd: Fd): Option<Msg> {
    if l.Thread? && l.a == AppendFrame && l.t in s.threads && s.threads[l.t].SendStart? && s.threads[l.t].fd == fd
    then Some(s.threads[l.t].m) else None
  }

  /** The write call that the step makes on this descriptor, if any. */
  ghost function Writes(s: State, l: Label, fd: Fd): Option<nat> {
    if l.Thread? && l.a.WriteSome? && l.t in s.threads && s.threads[l.t].fd == fd then Some(l.a.n) else None
  }

  /** What the step reads from this descriptor. */
  ghost function Reads(s: State, l: Label, fd: Fd): seq<Byte> {
    if l.Thread? && l.a.Receive? && l.t in s.threads && s.threads[l.t].fd == fd then l.a.chunk else []
  }

  ghost function OpOf(s: State, l: Label, fd: Fd): Option<Op> {
    if Appends(s, l, fd).Some? then Some(Outboxes.Append(Appends(s, l, fd).value))
    else if Writes(s, l, fd).Some? then Some(Outboxes.Write(Writes(s, l, fd).value))
    else None
  }

  /** The appends and write calls on a descriptor in the first i steps. */
  ghost function Ops(ss: seq<State>, ls: seq<Label>, i: nat, fd: Fd): seq<Op>
    requires i <= |ls| < |ss|
  {
    if i == 0 then []
    else
      var op := OpOf(ss[i - 1], ls[i - 1], fd);
      Ops(ss, ls, i - 1, fd) + if op.Some? then [op.value] else []
  }

  /** The messages appended for a descriptor in the first i steps, in order. */
  ghost function Sent(ss: seq<State>, ls: seq<Label>, i: nat, fd: Fd): seq<Msg>
    requires i <= |ls| < |ss|
  {
    if i == 0 then []
    else
      var m := Appends(ss[i - 1], ls[i - 1], fd);
      Sent(ss, ls, i - 1, fd) + if m.Some? then [m.value] else []
  }

  /** What was read from a descriptor in the first i steps. */
  ghost function Got(ss: seq<State>, ls: seq<Label>, i: nat, fd: Fd): seq<Byte>
    requires i <= |ls| < |ss|
  {
    if i == 0 then [] else Got(ss, ls, i - 1, fd) + Reads(ss[i - 1], ls[i - 1], fd)
  }

  // ---------- The two streams ----------

  ghost predicate Outcome(os: seq<Outboxes.Outbox>, ops: seq<Op>, o: Outboxes.Outbox) {
    Outboxes.IsRun(os, ops, false) && os[|ops|] == o
  }

  ghost predicate Results(ops: seq<Op>, o: Outboxes.Outbox) {
    exists os :: Outcome(os, ops, o)
  }

  lemma ResultsOn(ops: seq<Op>, o: Outboxes.Outbox, op: Op)
    requires Results(ops, o) && Outboxes.Legal(o, op)
    ensures Results(ops + [op], Outboxes.After(o, op, false))
  {
    var os :| Outcome(os, ops, o);
    assert Outcome(os + [Outboxes.After(o, op, false)], ops + [op], Outboxes.After(o, op, false));
  }

  lemma NothingResults()
    ensures Results([], Outboxes.EMPTY)
  {
    assert Outcome([Outboxes.EMPTY], [], Outboxes.EMPTY);
  }

  /** How a step changes the two streams of a connection. */
  lemma StreamsStep(s: State, l: Label, fd: Fd)
    requires Enabled(s, l) && fd in s.conns
    ensures fd in Apply(s, l).conns
    ensures var c, c', op := s.conns[fd], Apply(s, l).conns[fd], OpOf(s, l, fd);
            && c'.rd.inbox.received == c.rd.inbox.received + Reads(s, l, fd)
            && (op.None? ==> c'.wr.outbox == c.wr.outbox)
            && (op.Some? ==> Outboxes.Legal(c.wr.outbox, op.value)
                             && c'.wr.outbox == Outboxes.After(c.wr.outbox, op.value, false))
  {
    if l.Thread? {
      DoStreams(l.t, C(s, l.t), s.threads[l.t], s.lock, l.a);
    } else {
      ConnStep(s, l, fd);
    }
  }

  lemma DoStreams(t: Tid, c: Conn, pc: Pc, lock: Holder, a: Act)
    requires Can(c, pc, lock, a)
    ensures var c' := Do(t, c, pc, lock, a).c;
            && c'.rd.inbox.received == c.rd.inbox.received + (if a.Receive? then a.chunk else [])
            && c'.wr.outbox == (if a.AppendFrame? then Outboxes.Appended(c.wr.outbox, pc.m)
                                else if a.WriteSome? then Outboxes.Written(c.wr.outbox, a.n) else c.wr.outbox)
  {
  }

  lemma NoOps(s: State, l: Label, fd: Fd)
    requires Base(s) && Enabled(s, l) && fd !in s.conns
    ensures OpOf(s, l, fd) == None && Reads(s, l, fd) == []
    ensures fd in Apply(s, l).conns ==>
              Apply(s, l).conns[fd].wr.outbox == Outboxes.EMPTY && Apply(s, l).conns[fd].rd.inbox == UNREAD
  {
    if !l.Thread? && fd in Apply(s, l).conns {
      NewConn(s, l, fd);
    }
  }

  /**
   In every state of every run, the output side of a connection is what its appends and write calls make of it, one
   after the other, and its reader has got what was read.
   */
  lemma {:induction false} StreamsAre(ss: seq<State>, ls: seq<Label>, i: nat, fd: Fd)
    requires IsRun(ss, ls) && i <= |ls|
    ensures fd in ss[i].conns ==>
              && Results(Ops(ss, ls, i, fd), ss[i].conns[fd].wr.outbox)
              && ss[i].conns[fd].rd.inbox.received == Got(ss, ls, i, fd)
    ensures fd !in ss[i].conns ==> Ops(ss, ls, i, fd) == [] && Got(ss, ls, i, fd) == []
  {
    NothingResults();
    if i > 0 {
      var s, l := ss[i - 1], ls[i - 1];
      var ops := Ops(ss, ls, i - 1, fd);
      StreamsAre(ss, ls, i - 1, fd);
      RunKeeps(ss, ls, i - 1);
      assert ops + [] == ops;
      if fd in s.conns {
        StreamsStep(s, l, fd);
        if OpOf(s, l, fd).Some? {
          ResultsOn(ops, s.conns[fd].wr.outbox, OpOf(s, l, fd).value);
        }
      } else {
        NoOps(s, l, fd);
      }
    }
  }

  lemma {:induction false} SentIsOps(ss: seq<State>, ls: seq<Label>, i: nat, fd: Fd)
    requires IsRun(ss, ls) && i <= |ls|
    ensures Outboxes.MessagesOf(Ops(ss, ls, i, fd)) == Sent(ss, ls, i, fd)
  {
    if i > 0 {
      SentIsOps(ss, ls, i - 1, fd);
      var ops, op := Ops(ss, ls, i - 1, fd), OpOf(ss[i - 1], ls[i - 1], fd);
      assert ops + [] == ops;
      if op.Some? {
        assert (ops + [op.value])[..|ops|] == ops;
      }
    }
  }

  /**
   What a connection counts as sent is what the sending threads have appended, in order; what the socket has taken is as
   much as the write calls returned; and what was delivered is what the frames read so far say.
   */
  lemma SentIs(ss: seq<State>, ls: seq<Label>, i: nat, fd: Fd)
    requires IsRun(ss, ls) && i <= |ls| && fd in ss[i].conns
    ensures var c := ss[i].conns[fd];
            && c.wr.outbox.sent == Sent(ss, ls, i, fd)
            && |c.wr.outbox.accepted| == Outboxes.TakenBy(Ops(ss, ls, i, fd))
            && c.rd.inbox.delivered == Delivered(Feed([], Got(ss, ls, i, fd), EOT).frames)
  {
    StreamsAre(ss, ls, i, fd);
    SentIsOps(ss, ls, i, fd);
    RunKeeps(ss, ls, i);
    var ops, o := Ops(ss, ls, i, fd), ss[i].conns[fd].wr.outbox;
    var os :| Outcome(os, ops, o);
    Outboxes.SentAndTaken(os, ops, false);
    assert InboxOk(ss[i].conns[fd].rd.inbox);
  }

  // ---------- Messages come from the threads that submit them ----------

  /** The thread has been submitted this message in step j and is still about to append it before step k. */
  ghost predicate Pending(ss: seq<State>, ls: seq<Label>, j: int, k: nat, t: Tid, fd: Fd, m: Msg)
    requires k < |ss| == |ls| + 1
  {
    && 0 <= j < k && ls[j] == Submit(t, fd, m)
    && forall n :: j < n <= k ==> t in ss[n].threads && ss[n].threads[t] == SendStart(fd, m)
  }

  lemma SendStartStep(s: State, l: Label, t: Tid)
    requires Enabled(s, l) && t in Apply(s, l).threads && Apply(s, l).threads[t].SendStart?
    ensures var pc := Apply(s, l).threads[t];
            (t in s.threads && s.threads[t] == pc) || l == Submit(t, pc.fd, pc.m)
  {
    if l.Thread? {
      DoStarts(l.t, C(s, l.t), s.threads[l.t], s.lock, l.a);
    } else {
      ThreadsStep(s, l, t);
    }
  }

  lemma DoStarts(t: Tid, c: Conn, pc: Pc, lock: Holder, a: Act)
    requires Can(c, pc, lock, a)
    ensures var r := Do(t, c, pc, lock, a).pc; r.Some? ==> !r.value.SendStart?
  {
  }

  /** A message that is appended is the one that its thread was given when it was asked to send. */
  lemma {:induction false} AppendedWasSubmitted(ss: seq<State>, ls: seq<Label>, k: nat, t: Tid) returns (j: nat)
    requires IsRun(ss, ls) && k <= |ls| && t in ss[k].threads && ss[k].threads[t].SendStart?
    ensures Pending(ss, ls, j, k, t, ss[k].threads[t].fd, ss[k].threads[t].m)
  {
    SendStartStep(ss[k - 1], ls[k - 1], t);
    if t in ss[k - 1].threads && ss[k - 1].threads[t] == ss[k].threads[t] {
      j := AppendedWasSubmitted(ss, ls, k - 1, t);
    } else {
      j := k - 1;
    }
  }

  // ---------- What was closed ----------

  ghost predicate Closes(s: State, l: Label, fd: Fd, a: Act) {
    l.Thread? && l.a == a && l.t in s.threads && s.threads[l.t].fd == fd
  }

  ghost predicate HangsUp(s: State, l: Label, fd: Fd) {
    l.HangUp? && EpollOf(s, l.e).batch != [] && Head(s, l.e).fd == fd
  }

  ghost predicate WasClosed(ss: seq<State>, ls: seq<Label>, i: nat, fd: Fd, a: Act)
    requires i <= |ls| < |ss|
  {
    exists k :: 0 <= k < i && Closes(ss[k], ls[k], fd, a)
  }

  ghost predicate HasHungUp(ss: seq<State>, ls: seq<Label>, i: nat, fd: Fd)
    requires i <= |ls| < |ss|
  {
    exists k :: 0 <= k < i && HangsUp(ss[k], ls[k], fd)
  }

  ghost predicate WasAdded(ss: seq<State>, ls: seq<Label>, i: nat, fd: Fd)
    requires i <= |ls| < |ss|
  {
    exists k :: 0 <= k < i && ls[k] == SetMask(fd)
  }

  lemma FlagsStep(s: State, l: Label, s': State, fd: Fd)
    requires Enabled(s, l) && s' == Apply(s, l) && fd in s.conns
    ensures fd in s'.conns
    ensures s'.conns[fd].rd.valid <==> s.conns[fd].rd.valid && !Closes(s, l, fd, CloseRead)
    ensures s'.conns[fd].wr.valid <==> s.conns[fd].wr.valid && !Closes(s, l, fd, CloseWrite)
    ensures s'.conns[fd].hup <==> s.conns[fd].hup || HangsUp(s, l, fd)
    ensures s'.conns[fd].added <==> s.conns[fd].added || l == SetMask(fd)
  {
    if l.Thread? {
      DoFlags(l.t, C(s, l.t), s.threads[l.t], s.lock, l.a);
    } else {
      ConnStep(s, l, fd);
    }
  }

  lemma NewFlags(s: State, l: Label, s': State, fd: Fd)
    requires Base(s) && Enabled(s, l) && s' == Apply(s, l) && fd !in s.conns
    ensures !Closes(s, l, fd, CloseRead) && !Closes(s, l, fd, CloseWrite) && !HangsUp(s, l, fd) && l != SetMask(fd)
    ensures fd in s'.conns ==>
              var c := s'.conns[fd]; c.rd.valid && c.wr.valid && !c.hup && !c.added
  {
    if l.Thread? {
      assert ThreadShape(s, l.t);
    } else if fd in s'.conns {
      NewConn(s, l, fd);
    }
  }

  lemma DoFlags(t: Tid, c: Conn, pc: Pc, lock: Holder, a: Act)
    requires Can(c, pc, lock, a)
    ensures var c' := Do(t, c, pc, lock, a).c;
            && (c'.rd.valid <==> c.rd.valid && a != CloseRead) && (c'.wr.valid <==> c.wr.valid && a != CloseWrite)
            && c'.hup == c.hup && c'.added == c.added
  {
  }

  /**
   A side of a connection is valid exactly until a task closes it, a descriptor is open exactly until the epoll thread
   sees it hang up, and its mask is set exactly by `add`.
   */
  lemma {:induction false} FlagsAre(ss: seq<State>, ls: seq<Label>, i: nat, fd: Fd)
    requires IsRun(ss, ls) && i <= |ls|
    ensures fd in ss[i].conns ==>
              && (ss[i].conns[fd].rd.valid <==> !WasClosed(ss, ls, i, fd, CloseRead))
              && (ss[i].conns[fd].wr.valid <==> !WasClosed(ss, ls, i, fd, CloseWrite))
              && (ss[i].conns[fd].hup <==> HasHungUp(ss, ls, i, fd))
              && (ss[i].conns[fd].added <==> WasAdded(ss, ls, i, fd))
    ensures fd !in ss[i].conns ==>
              && !WasClosed(ss, ls, i, fd, CloseRead) && !WasClosed(ss, ls, i, fd, CloseWrite)
              && !HasHungUp(ss, ls, i, fd) && !WasAdded(ss, ls, i, fd)
  {
    if i > 0 {
      var j := i - 1;
      FlagsAre(ss, ls, j, fd);
      StepIsLast(ss, ls, j, fd);
      if fd in ss[j].conns {
        FlagsStep(ss[j], ls[j], ss[i], fd);
      } else {
        assert Base(ss[j]) by {
          RunKeeps(ss, ls, j);
        }
        NewFlags(ss[j], ls[j], ss[i], fd);
      }
    }
  }

  lemma StepIsLast(ss: seq<State>, ls: seq<Label>, j: nat, fd: Fd)
    requires j < |ls| < |ss|
    ensures forall a :: WasClosed(ss, ls, j + 1, fd, a) <==> WasClosed(ss, ls, j, fd, a) || Closes(ss[j], ls[j], fd, a)
    ensures HasHungUp(ss, ls, j + 1, fd) <==> HasHungUp(ss, ls, j, fd) || HangsUp(ss[j], ls[j], fd)
    ensures WasAdded(ss, ls, j + 1, fd) <==> WasAdded(ss, ls, j, fd) || ls[j] == SetMask(fd)
  {
  }

  // ---------- Nobody is stuck ----------

  // Whoever is inside e_mutex can leave it.
  lemma MutexIsFreed(s: State) returns (l: Label)
    requires Base(s) && s.lock != Free && (s.lock.ByEpoll? ==> EpollOf(s, s.lock.e).batch != [])
    ensures Enabled(s, l) && (l.Publish? || (l.Thread? && l.a == PublishArm))
  {
    if s.lock.ByThread? {
      assert ThreadShape(s, s.lock.t);
      l := Thread(s.lock.t, PublishArm);
    } else {
      assert EpollShape(s, s.lock.e);
      l := Publish(s.lock.e);
    }
  }

  /** What a thread that waits for no mutex of a descriptor does next, unless it has to wait for e_mutex. */
  function NextAct(c: Conn, pc: Pc): Act {
    match pc
    case SendStart(_, _) => if !c.wr.there then Missing else if c.wr.valid then AppendFrame else Refuse(true)
    case ReadQueued(_) => StartRead
    case Reading(_) => ReadBlocked
    case WriteQueued(_) => StartWrite
    case Writing(_) => if c.wr.outbox.buffer == [] then FinishWrite else WriteBlocked
    case SendArm(_) => Arm
    case ReadArm(_) => Arm
    case WriteArm(_) => Arm
    case _ => PublishArm
  }

  // The thread that holds a mutex of a descriptor goes on, or waits for e_mutex.
  lemma HolderGoesOn(s: State, t: Tid) returns (l: Label)
    requires Base(s) && t in s.threads && (s.threads[t].OwnsReader() || s.threads[t].OwnsWriter())
    ensures Enabled(s, l) && (l.Publish? || l.Thread?)
  {
    assert ThreadShape(s, t);
    if s.threads[t].Arming() && s.lock != Free {
      assert s.lock.ByEpoll? ==> EpollShape(s, s.lock.e);
      l := MutexIsFreed(s);
    } else {
      l := Thread(t, NextAct(C(s, t), s.threads[t]));
    }
  }

  /**
   In every state of every run in which some thread is at work, a thread or a callback can go on: the one in question,
   or the one that holds the mutex it waits for, or the one that this one waits for.
   */
  lemma SomeoneGoesOn(ss: seq<State>, ls: seq<Label>, i: nat, t: Tid) returns (l: Label)
    requires IsRun(ss, ls) && i <= |ls| && t in ss[i].threads
    ensures Enabled(ss[i], l) && (l.Publish? || l.Thread?)
  {
    RunKeeps(ss, ls, i);
    var s := ss[i];
    assert ThreadShape(s, t);
    var c, pc := C(s, t), s.threads[t];
    assert HeldOk(s, pc.fd);
    if pc.OwnsReader() || pc.OwnsWriter() {
      l := HolderGoesOn(s, t);
    } else if (pc.SendStart? || pc.WriteQueued?) && c.wr.holder.Some? {
      l := HolderGoesOn(s, c.wr.holder.value);
    } else if pc.ReadQueued? && c.rd.holder.Some? {
      l := HolderGoesOn(s, c.rd.holder.value);
    } else if pc.Arming() && s.lock != Free {
      assert s.lock.ByEpoll? ==> EpollShape(s, s.lock.e);
      l := MutexIsFreed(s);
    } else {
      l := Thread(t, NextAct(c, pc));
    }
  }
}
