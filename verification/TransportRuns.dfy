/** Runs of a server in which an event comes before `add` has set the mask. */
module TransportRuns {
  import opened Bytes
  import opened Fields
  import opened Frames
  import opened Interest
  import Outboxes
  import opened Transport

  /** The server's order allows the race: epoll watches a new descriptor before `add` has run. */
  lemma RaceIsReachable(fd: Fd, e: Eid) returns (ss: seq<State>, ls: seq<Label>)
    ensures IsRun(ss, ls) && |ls| == 3 && ss[3].raced
    ensures fd in ss[3].conns && ss[3].conns[fd].mask.inb && ss[3].conns[fd].kernel.inb
  {
    var s1 := Apply(INITIAL, Register(fd, e, false));
    var batch := [Event(fd, false, Mask(true, false))];
    var s2 := Apply(s1, Wait(e, batch));
    var s3 := Apply(s2, Toggle(e, In));
    ss, ls := [INITIAL, s1, s2, s3], [Register(fd, e, false), Wait(e, batch), Toggle(e, In)];
  }

  lemma Extend(ss: seq<State>, ls: seq<Label>, l: Label) returns (ss': seq<State>, ls': seq<Label>)
    requires IsRun(ss, ls) && Enabled(ss[|ls|], l)
    ensures IsRun(ss', ls') && ss'[|ls'|] == Apply(ss[|ls|], l)
  {
    ss', ls' := ss + [Apply(ss[|ls|], l)], ls + [l];
  }

  const BOTH := Mask(true, true)
  const ONLY_IN := Mask(true, false)

  /** Descriptor 5 has been toggled early, by the one epoll thread, and its event is all but handled. */
  ghost predicate Early(s: State, c: Conn, threads: map<Tid, Pc>) {
    s == State(map[5 := c], threads, map[0 := Epoll([Event(5, false, NOTHING)], Pick)], Free, true)
  }

  const TOGGLED := Accepted(0, false).(mask := ONLY_IN)

  // The first event comes before `add` has run;
  lemma EarlyToggle() returns (ss: seq<State>, ls: seq<Label>)
    ensures IsRun(ss, ls)
    ensures ss[|ls|] == State(map[5 := TOGGLED], map[], map[0 := Epoll([Event(5, false, ONLY_IN)], Hold(In))],
                              ByEpoll(0), true)
  {
    ss, ls := [INITIAL], [];
    ss, ls := Extend(ss, ls, Register(5, 0, false));
    ss, ls := Extend(ss, ls, Wait(0, [Event(5, false, ONLY_IN)]));
    ss, ls := Extend(ss, ls, Toggle(0, In));
  }

  // its read task waits in the pool.
  lemma EarlyEvent() returns (ss: seq<State>, ls: seq<Label>)
    ensures IsRun(ss, ls) && Early(ss[|ls|], TOGGLED, map[1 := ReadQueued(5)])
  {
    ss, ls := EarlyToggle();
    ss, ls := Extend(ss, ls, Publish(0));
    assert [Event(5, false, ONLY_IN)][1..] == [];
    ss, ls := Extend(ss, ls, Spawn(0, 1));
    assert EpollOf(ss[|ls|], 0).batch == [Event(5, false, NOTHING)];
  }

  // The resources are made; the read task gets a message.
  lemma EarlyMessage(m: Msg) returns (ss: seq<State>, ls: seq<Label>, c: Conn)
    requires Sized(m) && Clean(m) && |Pack(m)| <= SLICE
    ensures IsRun(ss, ls) && Early(ss[|ls|], c, map[1 := Reading(5)])
    ensures c == TOGGLED.(rd := ReadSide(true, true, Some(1), c.rd.inbox),
                          wr := WriteSide(true, true, None, Outboxes.EMPTY))
    ensures c.rd.inbox.delivered == [m]
  {
    ss, ls := EarlyEvent();
    ss, ls := Extend(ss, ls, AddReader(5));
    ss, ls := Extend(ss, ls, AddWriter(5));
    ss, ls := Extend(ss, ls, Thread(1, StartRead));
    FeedPacked(m);
    ss, ls := Extend(ss, ls, Thread(1, Receive(Pack(m))));
    c := ss[|ls|].conns[5];
    assert c.rd.inbox.delivered == [] + Delivered(Feed([], Pack(m), EOT).frames);
  }

  // The handler replies.
  lemma EarlyReply(m: Msg, reply: Msg) returns (ss: seq<State>, ls: seq<Label>, c: Conn)
    requires Sized(m) && Clean(m) && |Pack(m)| <= SLICE && Sized(reply)
    ensures IsRun(ss, ls) && Early(ss[|ls|], c, map[1 := Reading(5)])
    ensures c == Conn(0, false, false, BOTH, BOTH, ReadSide(true, true, Some(1), c.rd.inbox),
                      WriteSide(true, true, None, Outboxes.Appended(Outboxes.EMPTY, reply)))
  {
    ss, ls, c := EarlyMessage(m);
    ss, ls := Extend(ss, ls, Submit(2, 5, reply));
    ss, ls := Extend(ss, ls, Thread(2, AppendFrame));
    ss, ls := Extend(ss, ls, Thread(2, Arm));
    ss, ls := Extend(ss, ls, Thread(2, PublishArm));
    c := ss[|ls|].conns[5];
    assert ss[|ls|].threads == map[1 := Reading(5)];
  }

  // The mask is set; the read task sees that there is nothing more to read.
  lemma EarlyMask(m: Msg, reply: Msg) returns (ss: seq<State>, ls: seq<Label>, c: Conn)
    requires Sized(m) && Clean(m) && |Pack(m)| <= SLICE && Sized(reply)
    ensures IsRun(ss, ls) && Early(ss[|ls|], c, map[1 := ReadArm(5)])
    ensures c == Conn(0, true, false, ONLY_IN, BOTH, ReadSide(true, true, Some(1), c.rd.inbox),
                      WriteSide(true, true, None, Outboxes.Appended(Outboxes.EMPTY, reply)))
  {
    ss, ls, c := EarlyReply(m, reply);
    ss, ls := Extend(ss, ls, SetMask(5));
    ss, ls := Extend(ss, ls, Thread(1, ReadBlocked));
    c := ss[|ls|].conns[5];
    assert ss[|ls|].threads == map[1 := ReadArm(5)];
  }

  /**
   In the end the reply is in the writer, and neither sfd_events nor the kernel has EPOLLOUT; no thread is at work and
   no event is waiting.
   */
  lemma ReplyStranded(m: Msg, reply: Msg) returns (ss: seq<State>, ls: seq<Label>)
    requires Sized(m) && Clean(m) && |Pack(m)| <= SLICE && Sized(reply)
    ensures IsRun(ss, ls)
    ensures var s := ss[|ls|];
            && Stranded(s, 5) && Abandoned(s, 5)
            && s.conns[5].wr.outbox.buffer == Pack(reply) && s.conns[5].added && !s.conns[5].hup
            && s.conns[5].mask == s.conns[5].kernel == ONLY_IN
            && s.threads == map[] && s.lock == Free && forall e :: EpollOf(s, e) == IDLE
  {
    var c;
    ss, ls, c := EarlyMask(m, reply);
    ss, ls := Extend(ss, ls, Thread(1, Arm));
    ss, ls := Extend(ss, ls, Thread(1, PublishArm));
    ss, ls := Extend(ss, ls, Skip(0));
    var s := ss[|ls|];
    assert EpollOf(s, 0) == IDLE && s.threads == map[];
    assert s.conns[5].wr.outbox.buffer == [] + Pack(reply);
  }
}
