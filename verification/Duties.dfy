/**
 What an epoll thread has to do because of what `epoll_wait` has reported, and what a thread has to arm because of what
 it has done to a connection: nothing of this is forgotten, done twice or done for another descriptor.
 */
module Duties {
  import opened Bytes
  import opened Interest
  import opened Transport

  // ---------- What epoll reports ----------

  /** Close a descriptor, or hand a read or write task to a pool. */
  datatype Duty = Close(fd: Fd) | Task(fd: Fd, b: Bit)

  /** An error counts alone; of the bits, EPOLLIN comes first. */
  function Asked(ev: Event): seq<Duty> {
    if ev.err then [Close(ev.fd)]
    else (if ev.bits.Has(In) then [Task(ev.fd, In)] else []) + if ev.bits.Has(Out) then [Task(ev.fd, Out)] else []
  }

  function AllAsked(batch: seq<Event>): seq<Duty> {
    if batch == [] then [] else Asked(batch[0]) + AllAsked(batch[1..])
  }

  function Reports(l: Label, e: Eid): seq<Duty> {
    if l.Wait? && l.e == e then AllAsked(l.batch) else []
  }

  // The task that a new thread has come for.
  function TaskOf(pc: Pc): Option<Duty> {
    if pc.ReadQueued? then Some(Task(pc.fd, In)) else if pc.WriteQueued? then Some(Task(pc.fd, Out)) else None
  }

  /** The duty that the step of an epoll thread does away with. */
  ghost function Does(s: State, l: Label, s': State, e: Eid): seq<Duty> {
    if l.HangUp? && l.e == e && EpollOf(s, e).batch != [] then [Close(Head(s, e).fd)]
    else if l.Spawn? && l.e == e && l.t in s'.threads && TaskOf(s'.threads[l.t]).Some?
    then [TaskOf(s'.threads[l.t]).value]
    else []
  }

  /** What `epoll_wait` has reported to an epoll thread in the first i steps. */
  ghost function Reported(ls: seq<Label>, i: nat, e: Eid): seq<Duty>
    requires i <= |ls|
  {
    if i == 0 then [] else Reported(ls, i - 1, e) + Reports(ls[i - 1], e)
  }

  /** What that epoll thread has done in the first i steps. */
  ghost function Done(ss: seq<State>, ls: seq<Label>, i: nat, e: Eid): seq<Duty>
    requires i <= |ls| < |ss|
  {
    if i == 0 then [] else Done(ss, ls, i - 1, e) + Does(ss[i - 1], ls[i - 1], ss[i], e)
  }

  // A callback for EPOLLOUT comes after the one for EPOLLIN.
  ghost predicate InOrder(s: State, e: Eid) {
    var ep := EpollOf(s, e);
    ep.phase != Pick && ep.phase.b == Out && ep.batch != [] ==> !ep.batch[0].bits.Has(In)
  }

  ghost predicate Accounts(s: State, l: Label, s': State, e: Eid) {
    AllAsked(EpollOf(s, e).batch) + Reports(l, e) == Does(s, l, s', e) + AllAsked(EpollOf(s', e).batch)
  }

  lemma DutyStep(s: State, l: Label, s': State, e: Eid)
    requires Base(s) && Enabled(s, l) && s' == Apply(s, l) && InOrder(s, e)
    ensures InOrder(s', e) && Accounts(s, l, s', e)
  {
    if !OfEpoll(l) || l.e != e {
      OtherEpolls(s, l, e);
      assert Accounts(s, l, s', e);
    } else if l.Spawn? {
      assert EpollShape(s, e);
      SpawnDuty(s, l, s');
    } else if l.Wait? {
      assert EpollOf(s', e) == Epoll(l.batch, Pick);
    } else if l.Skip? || l.HangUp? {
      PopDuty(s, l, s');
    } else {
      assert EpollOf(s', e).batch == EpollOf(s, e).batch;
    }
  }

  lemma SpawnDuty(s: State, l: Label, s': State)
    requires l.Spawn? && Enabled(s, l) && s' == Apply(s, l) && EpollShape(s, l.e) && InOrder(s, l.e)
    ensures InOrder(s', l.e) && Accounts(s, l, s', l.e)
  {
    var batch, b := EpollOf(s, l.e).batch, EpollOf(s, l.e).phase.b;
    assert EpollOf(s', l.e) == Epoll([LessOne(batch[0], b)] + batch[1..], Pick);
    assert s'.threads[l.t] == if b == In then ReadQueued(batch[0].fd) else WriteQueued(batch[0].fd);
    OneLess(batch, b);
  }

  // The event without one of its bits.
  function LessOne(ev: Event, b: Bit): Event {
    ev.(bits := ev.bits.Toggled(b))
  }

  lemma OneLess(batch: seq<Event>, b: Bit)
    requires batch != [] && !batch[0].err && batch[0].bits.Has(b) && (b == Out ==> !batch[0].bits.Has(In))
    ensures AllAsked(batch) == [Task(batch[0].fd, b)] + AllAsked([LessOne(batch[0], b)] + batch[1..])
  {
    var task, ev', rest := [Task(batch[0].fd, b)], LessOne(batch[0], b), batch[1..];
    assert Asked(batch[0]) == task + Asked(ev');
    assert ([ev'] + rest)[1..] == rest;
    assert task + Asked(ev') + AllAsked(rest) == task + (Asked(ev') + AllAsked(rest));
  }

  // The first event asks for nothing any more, or for what the step does.
  lemma PopDuty(s: State, l: Label, s': State)
    requires (l.Skip? || l.HangUp?) && Enabled(s, l) && s' == Apply(s, l)
    ensures InOrder(s', l.e) && Accounts(s, l, s', l.e)
  {
    var batch := EpollOf(s, l.e).batch;
    assert EpollOf(s', l.e) == Epoll(batch[1..], Pick);
    assert AllAsked(batch) == Asked(batch[0]) + AllAsked(batch[1..]);
  }

  /**
   In every run, what an epoll thread has closed and handed to the pools, in order, followed by what its last batch
   still asks for, is what `epoll_wait` has reported to it.
   */
  lemma {:induction false} DutiesAreDone(ss: seq<State>, ls: seq<Label>, i: nat, e: Eid)
    requires IsRun(ss, ls) && i <= |ls|
    ensures Reported(ls, i, e) == Done(ss, ls, i, e) + AllAsked(EpollOf(ss[i], e).batch)
    ensures InOrder(ss[i], e)
  {
    if i > 0 {
      var j := i - 1;
      DutiesAreDone(ss, ls, j, e);
      assert Base(ss[j]) by {
        RunKeeps(ss, ls, j);
      }
      DutyStep(ss[j], ls[j], ss[i], e);
      Regroup(Done(ss, ls, j, e), AllAsked(EpollOf(ss[j], e).batch), Reports(ls[j], e),
              Does(ss[j], ls[j], ss[i], e), AllAsked(EpollOf(ss[i], e).batch));
    }
  }

  lemma Regroup(a: seq<Duty>, b: seq<Duty>, c: seq<Duty>, d: seq<Duty>, e: seq<Duty>)
    requires b + c == d + e
    ensures a + b + c == a + d + e
  {
    assert a + b + c == a + (b + c);
    assert a + d + e == a + (d + e);
  }

  // ---------- What has to be armed ----------

  /** The bit that a thread has to arm, and tell the kernel, after this act. */
  function Due(a: Act): Option<Bit> {
    match a
    case AppendFrame => Some(Out)
    case Refuse(arm) => if arm then Some(Out) else None
    case ReadBlocked => Some(In)
    case WriteBlocked => Some(Out)
    case _ => None
  }

  /** The thread has this act behind it, and has not armed the descriptor yet. */
  ghost predicate IsDue(s: State, t: Tid, fd: Fd, b: Bit) {
    t in s.threads && s.threads[t].Arming() && s.threads[t].fd == fd && s.threads[t].ArmBit() == b
  }

  ghost predicate IsHeld(s: State, t: Tid, fd: Fd, b: Bit) {
    t in s.threads && s.threads[t].Holding() && s.threads[t].fd == fd && s.threads[t].ArmBit() == b
  }

  /** In step n the thread arms the bit. */
  ghost predicate ArmsAt(ss: seq<State>, ls: seq<Label>, n: int, t: Tid, fd: Fd, b: Bit)
    requires |ss| == |ls| + 1
  {
    && 0 <= n < |ls| && ls[n] == Thread(t, Arm) && t in ss[n].threads && ss[n].threads[t].fd == fd
    && fd in ss[n + 1].conns && ss[n + 1].conns[fd].mask.Has(b)
  }

  /** In step n the thread tells the kernel the mask, unless the descriptor has been closed. */
  ghost predicate TellsAt(ss: seq<State>, ls: seq<Label>, n: int, t: Tid, fd: Fd)
    requires |ss| == |ls| + 1
  {
    && 0 <= n < |ls| && ls[n] == Thread(t, PublishArm) && t in ss[n].threads && ss[n].threads[t].fd == fd
    && fd in ss[n + 1].conns && (ss[n + 1].conns[fd].hup || ss[n + 1].conns[fd].kernel == ss[n + 1].conns[fd].mask)
  }

  ghost predicate Armed(ss: seq<State>, ls: seq<Label>, k: int, i: nat, t: Tid, fd: Fd, b: Bit)
    requires |ss| == |ls| + 1
  {
    exists n :: k < n < i && ArmsAt(ss, ls, n, t, fd, b)
  }

  ghost predicate ArmedAndTold(ss: seq<State>, ls: seq<Label>, k: int, i: nat, t: Tid, fd: Fd, b: Bit)
    requires |ss| == |ls| + 1
  {
    exists n, p :: k < n < p < i && ArmsAt(ss, ls, n, t, fd, b) && TellsAt(ss, ls, p, t, fd)
  }

  // The act by which a thread t comes to owe the bit.
  ghost predicate Owes(s: State, l: Label, t: Tid, fd: Fd, b: Bit) {
    l.Thread? && l.t == t && t in s.threads && s.threads[t].fd == fd && Due(l.a) == Some(b)
  }

  lemma OwesStep(s: State, l: Label, s': State, t: Tid, fd: Fd, b: Bit)
    requires Enabled(s, l) && s' == Apply(s, l)
    ensures Owes(s, l, t, fd, b) ==> IsDue(s', t, fd, b)
    ensures IsDue(s', t, fd, b) ==> IsDue(s, t, fd, b) || Owes(s, l, t, fd, b)
    ensures IsDue(s, t, fd, b) && !IsDue(s', t, fd, b) ==>
              l == Thread(t, Arm) && IsHeld(s', t, fd, b) && fd in s'.conns && s'.conns[fd].mask.Has(b)
    ensures IsHeld(s, t, fd, b) && !IsHeld(s', t, fd, b) ==>
              l == Thread(t, PublishArm) && fd in s'.conns
              && (s'.conns[fd].hup || s'.conns[fd].kernel == s'.conns[fd].mask)
  {
    if l.Thread? {
      DoOwes(l.t, C(s, l.t), s.threads[l.t], s.lock, l.a);
    } else {
      ThreadsStep(s, l, t);
    }
  }

  lemma DoOwes(t: Tid, c: Conn, pc: Pc, lock: Holder, a: Act)
    requires Can(c, pc, lock, a)
    ensures var r := Do(t, c, pc, lock, a);
            && (r.pc.Some? ==> r.pc.value.fd == pc.fd)
            && (r.pc.Some? && r.pc.value.Arming() <==> Due(a).Some?)
            && (Due(a).Some? ==> r.pc.value.ArmBit() == Due(a).value)
            && (pc.Arming() ==> a == Arm && r.c.mask.Has(pc.ArmBit()) && r.pc == Some(pc.Held()))
            && (pc.Holding() ==> a == PublishArm && (r.c.hup || r.c.kernel == r.c.mask))
  {
  }

  /**
   A thread that has appended a frame, has been refused one by a server, or has drained a connection as far as it went,
   is about to arm the bit for more; or has armed it, and is about to tell the kernel, or has told it.
   */
  lemma {:induction false} WhatIsDue(ss: seq<State>, ls: seq<Label>, k: nat, i: nat, t: Tid, fd: Fd, b: Bit)
    requires IsRun(ss, ls) && k < i <= |ls| && Owes(ss[k], ls[k], t, fd, b)
    ensures IsDue(ss[i], t, fd, b) || (IsHeld(ss[i], t, fd, b) && Armed(ss, ls, k, i, t, fd, b))
            || ArmedAndTold(ss, ls, k, i, t, fd, b)
    decreases i
  {
    var j := i - 1;
    OwesStep(ss[j], ls[j], ss[i], t, fd, b);
    if k < j {
      WhatIsDue(ss, ls, k, j, t, fd, b);
      if IsDue(ss[j], t, fd, b) && !IsDue(ss[i], t, fd, b) {
        assert ArmsAt(ss, ls, j, t, fd, b);
      } else if IsHeld(ss[j], t, fd, b) && Armed(ss, ls, k, j, t, fd, b) && !IsHeld(ss[i], t, fd, b) {
        assert TellsAt(ss, ls, j, t, fd);
      }
    }
  }

  /** So that it is not done before it has armed the bit and told the kernel. */
  lemma NothingIsForgotten(ss: seq<State>, ls: seq<Label>, k: nat, i: nat, t: Tid, fd: Fd, b: Bit)
    requires IsRun(ss, ls) && k < i <= |ls| && Owes(ss[k], ls[k], t, fd, b) && t !in ss[i].threads
    ensures ArmedAndTold(ss, ls, k, i, t, fd, b)
  {
    WhatIsDue(ss, ls, k, i, t, fd, b);
  }

  /** Nobody arms a bit without such a reason. */
  lemma {:induction false} ArmHasReason(ss: seq<State>, ls: seq<Label>, n: nat, t: Tid, fd: Fd, b: Bit) returns (k: nat)
    requires IsRun(ss, ls) && n <= |ls| && IsDue(ss[n], t, fd, b)
    ensures k < n && Owes(ss[k], ls[k], t, fd, b) && forall j :: k < j <= n ==> IsDue(ss[j], t, fd, b)
  {
    var j := n - 1;
    OwesStep(ss[j], ls[j], ss[n], t, fd, b);
    if Owes(ss[j], ls[j], t, fd, b) {
      k := j;
    } else {
      k := ArmHasReason(ss, ls, j, t, fd, b);
    }
  }
}
