/**
 The epoll transport of one process as a step system: any number of descriptors, sending threads, read tasks, write
 tasks and epoll threads, and the mutexes that order their steps. A step is what a thread does between two points where
 another thread can interfere. Each descriptor is watched by one epoll thread: a server has one thread for all, a client
 one for each connection. A server makes the resources of a descriptor after epoll has begun to watch it, and sets its
 mask last; a client makes them on demand, which is as if they were there from the start.
 */
module Transport {
  import opened Bytes
  import opened Fields
  import opened Frames
  import opened Interest
  import opened Outboxes

  type Fd = int
  type Tid = int
  type Eid = int

  /** What one descriptor has read: the bytes, the unfinished frame, and the messages handed to the handler. */
  datatype Inbox = Inbox(received: seq<Byte>, buffer: seq<Byte>, delivered: seq<Msg>)

  function Received(i: Inbox, chunk: seq<Byte>): Inbox {
    var fed := Feed(i.buffer, chunk, EOT);
    Inbox(i.received + chunk, fed.residue, i.delivered + Delivered(fed.frames))
  }

  // The holder is who has the mutex across steps.
  datatype ReadSide = ReadSide(there: bool, valid: bool, holder: Option<Tid>, inbox: Inbox)
  datatype WriteSide = WriteSide(there: bool, valid: bool, holder: Option<Tid>, outbox: Outbox)

  datatype Conn = Conn(
    owner: Eid,        // the epoll thread
    added: bool,       // sfd_events[fd] has been set
    hup: bool,         // the epoll thread has closed the descriptor
    mask: Mask,        // sfd_events[fd]
    kernel: Mask,      // what epoll_ctl was told last
    rd: ReadSide,
    wr: WriteSide)

  const UNREAD := Inbox([], [], [])

  // Resources made on demand are there from the start.
  function Accepted(e: Eid, onDemand: bool): Conn {
    Conn(e, false, false, NOTHING, Mask(true, false),
         ReadSide(onDemand, true, None, UNREAD), WriteSide(onDemand, true, None, EMPTY))
  }

  datatype Pc =
    | SendStart(fd: Fd, m: Msg)   // about to lock the writer
    | SendArm(fd: Fd)             // done with the writer, about to lock e_mutex
    | SendHold(fd: Fd)            // has updated sfd_events, about to call epoll_ctl and unlock
    | ReadQueued(fd: Fd)          // in the read pool, or started and not yet in the reader's mutex
    | Reading(fd: Fd)
    | ReadArm(fd: Fd)             // has seen EAGAIN, still holds the reader's mutex
    | ReadHold(fd: Fd)
    | WriteQueued(fd: Fd)
    | Writing(fd: Fd)
    | WriteArm(fd: Fd)            // has seen EAGAIN, still holds the writer's mutex
    | WriteHold(fd: Fd)
  {
    predicate Arming() { SendArm? || ReadArm? || WriteArm? }
    predicate Holding() { SendHold? || ReadHold? || WriteHold? }
    function ArmBit(): Bit { if ReadArm? || ReadHold? then In else Out }
    function Held(): Pc {
      if ReadArm? then ReadHold(fd) else if WriteArm? then WriteHold(fd) else SendHold(fd)
    }
    predicate OwnsReader() { Reading? || ReadArm? || ReadHold? }
    predicate OwnsWriter() { Writing? || WriteArm? || WriteHold? }
    // A read task that has not armed EPOLLIN again.
    predicate Reader() { ReadQueued? || Reading? || ReadArm? }
    // A thread that will either empty the buffer or arm EPOLLOUT, or make room for one that does.
    predicate Flusher() { SendArm? || WriteQueued? || Writing? || WriteArm? }
  }

  datatype Event = Event(fd: Fd, err: bool, bits: Mask)

  datatype Phase = Pick | Hold(b: Bit) | Hand(b: Bit)

  /** The events of the last epoll_wait still to be handled, and how far the callback for the first one is. */
  datatype Epoll = Epoll(batch: seq<Event>, phase: Phase)

  /** Who is in the critical section of e_mutex. */
  datatype Holder = Free | ByEpoll(e: Eid) | ByThread(t: Tid)

  datatype State = State(
    conns: map<Fd, Conn>,
    threads: map<Tid, Pc>,
    epolls: map<Eid, Epoll>,   // the others are idle
    lock: Holder,
    raced: bool)   // a callback has toggled the mask of a descriptor that was not added

  const IDLE := Epoll([], Pick)

  const INITIAL := State(map[], map[], map[], Free, false)

  /** What a sending thread or a task does next. */
  datatype Act =
    | AppendFrame
    | Missing                 // there is no writer
    | Refuse(arm: bool)       // the writer is not valid; the server arms EPOLLOUT all the same
    | Arm                     // lock e_mutex and update sfd_events
    | PublishArm              // call epoll_ctl and unlock
    | StartRead
    | Receive(chunk: seq<Byte>)
    | ReadBlocked
    | CloseRead
    | StartWrite
    | WriteSome(n: nat)
    | WriteBlocked
    | CloseWrite
    | FinishWrite

  predicate Can(c: Conn, pc: Pc, lock: Holder, a: Act) {
    match a
    case AppendFrame => pc.SendStart? && Sized(pc.m) && c.wr.there && c.wr.holder == None && c.wr.valid
    case Missing => pc.SendStart? && !c.wr.there
    case Refuse(arm) => pc.SendStart? && c.wr.there && c.wr.holder == None && !c.wr.valid
    case Arm => pc.Arming() && lock == Free
    case PublishArm => pc.Holding()
    case StartRead => pc.ReadQueued? && (c.rd.there ==> c.rd.holder == None)
    case Receive(chunk) => pc.Reading? && 0 < |chunk| <= SLICE
    case ReadBlocked => pc.Reading?
    case CloseRead => pc.Reading?
    case StartWrite => pc.WriteQueued? && (c.wr.there ==> c.wr.holder == None)
    case WriteSome(n) => pc.Writing? && c.wr.outbox.buffer != [] && n <= Slice(c.wr.outbox)
    case WriteBlocked => pc.Writing? && c.wr.outbox.buffer != []
    case CloseWrite => pc.Writing? && c.wr.outbox.buffer != []
    case FinishWrite => pc.Writing? && c.wr.outbox.buffer == []
  }

  /** The thread's connection, its next program counter (none when it is done) and the state of e_mutex. */
  datatype Local = Local(c: Conn, pc: Option<Pc>, lock: Holder)

  // epoll_ctl has no effect on a descriptor that was closed.
  function Published(c: Conn): Conn {
    if c.hup then c else c.(kernel := c.mask)
  }

  // The mutex that the thread has held while it armed the descriptor.
  function Unlocked(c: Conn, pc: Pc): Conn {
    if pc.ReadHold? then c.(rd := c.rd.(holder := None))
    else if pc.WriteHold? then c.(wr := c.wr.(holder := None))
    else c
  }

  function Do(t: Tid, c: Conn, pc: Pc, lock: Holder, a: Act): Local
    requires Can(c, pc, lock, a)
  {
    match a
    case AppendFrame => Local(c.(wr := c.wr.(outbox := Appended(c.wr.outbox, pc.m))), Some(SendArm(pc.fd)), lock)
    case Missing => Local(c, None, lock)
    case Refuse(arm) => Local(c, if arm then Some(SendArm(pc.fd)) else None, lock)
    case Arm => Local(c.(mask := c.mask.Armed(pc.ArmBit())), Some(pc.Held()), ByThread(t))
    case PublishArm => Local(Unlocked(Published(c), pc), None, Free)
    case StartRead =>
      if c.rd.there && c.rd.valid then Local(c.(rd := c.rd.(holder := Some(t))), Some(Reading(pc.fd)), lock)
      else Local(c, None, lock)
    case Receive(chunk) => Local(c.(rd := c.rd.(inbox := Received(c.rd.inbox, chunk))), Some(pc), lock)
    case ReadBlocked => Local(c, Some(ReadArm(pc.fd)), lock)
    case CloseRead => Local(c.(rd := c.rd.(valid := false, holder := None)), None, lock)
    case StartWrite =>
      if c.wr.there && c.wr.valid then Local(c.(wr := c.wr.(holder := Some(t))), Some(Writing(pc.fd)), lock)
      else Local(c, None, lock)
    case WriteSome(n) => Local(c.(wr := c.wr.(outbox := Written(c.wr.outbox, n))), Some(pc), lock)
    case WriteBlocked => Local(c, Some(WriteArm(pc.fd)), lock)
    case CloseWrite => Local(c.(wr := c.wr.(valid := false, holder := None)), None, lock)
    case FinishWrite => Local(c.(wr := c.wr.(holder := None)), None, lock)
  }

  datatype Label =
    | Register(fd: Fd, e: Eid, onDemand: bool)   // accept or connect, and epoll_ctl ADD
    | AddReader(fd: Fd)                    // add makes the reader,
    | AddWriter(fd: Fd)                    // then the writer,
    | SetMask(fd: Fd)                      // then sets sfd_events[fd]
    | Submit(t: Tid, fd: Fd, m: Msg)
    | Thread(t: Tid, a: Act)
    | Wait(e: Eid, batch: seq<Event>)      // epoll_wait returns
    | Skip(e: Eid)                         // the first event has no bit left
    | HangUp(e: Eid)                       // the first event reports EPOLLERR or EPOLLHUP
    | Toggle(e: Eid, b: Bit)               // the callback locks e_mutex and updates sfd_events
    | Publish(e: Eid)                      // the callback calls epoll_ctl and unlocks
    | Spawn(e: Eid, t: Tid)                // the callback puts the task in the pool

  function EpollOf(s: State, e: Eid): Epoll {
    if e in s.epolls then s.epolls[e] else IDLE
  }

  function Head(s: State, e: Eid): Event
    requires EpollOf(s, e).batch != []
  {
    EpollOf(s, e).batch[0]
  }

  ghost predicate ValidBatch(s: State, e: Eid, batch: seq<Event>) {
    && 0 < |batch| <= 64
    && (forall i :: 0 <= i < |batch| ==>
          batch[i].fd in s.conns && s.conns[batch[i].fd].owner == e && !s.conns[batch[i].fd].hup)
    && (forall i, j :: 0 <= i < j < |batch| ==> batch[i].fd != batch[j].fd)
    && (forall i, b: Bit :: 0 <= i < |batch| && batch[i].bits.Has(b) ==> s.conns[batch[i].fd].kernel.Has(b))
  }

  ghost predicate At(s: State, t: Tid) {
    t in s.threads && s.threads[t].fd in s.conns
  }

  // The connection thread t works on.
  ghost function C(s: State, t: Tid): Conn
    requires At(s, t)
  {
    s.conns[s.threads[t].fd]
  }

  /** The epoll thread is about to deal with the first of its events. */
  ghost predicate AtHead(s: State, e: Eid) {
    EpollOf(s, e).batch != [] && EpollOf(s, e).phase == Pick && Head(s, e).fd in s.conns
  }

  // A thread that sends knows the descriptor since it was added, or from a message delivered on it.
  predicate Known(c: Conn) {
    c.added || c.rd.inbox.delivered != []
  }

  ghost predicate Enabled(s: State, l: Label) {
    match l
    case Register(fd, e, onDemand) => fd !in s.conns
    case AddReader(fd) => fd in s.conns && !s.conns[fd].rd.there
    case AddWriter(fd) => fd in s.conns && s.conns[fd].rd.there && !s.conns[fd].wr.there
    case SetMask(fd) => fd in s.conns && s.conns[fd].wr.there && !s.conns[fd].added && s.lock == Free
    case Submit(t, fd, m) => t !in s.threads && fd in s.conns && Known(s.conns[fd]) && Sized(m)
    case Thread(t, a) => At(s, t) && Can(C(s, t), s.threads[t], s.lock, a)
    case Wait(e, batch) => EpollOf(s, e) == IDLE && ValidBatch(s, e, batch)
    case Skip(e) => AtHead(s, e) && !Head(s, e).err && Head(s, e).bits == NOTHING
    case HangUp(e) => AtHead(s, e) && Head(s, e).err
    case Toggle(e, b) =>
      && AtHead(s, e) && s.lock == Free
      && !Head(s, e).err && Head(s, e).bits.Has(b) && (b == Out ==> !Head(s, e).bits.inb)
    case Publish(e) => EpollOf(s, e).batch != [] && EpollOf(s, e).phase.Hold? && Head(s, e).fd in s.conns
    case Spawn(e, t) => EpollOf(s, e).batch != [] && EpollOf(s, e).phase.Hand? && t !in s.threads
  }

  ghost function SetConn(s: State, fd: Fd, c: Conn): State {
    s.(conns := s.conns[fd := c])
  }

  ghost function SetEpoll(s: State, e: Eid, ep: Epoll): State {
    s.(epolls := s.epolls[e := ep])
  }

  // The first event is dealt with.
  ghost function Next(s: State, e: Eid): State
    requires EpollOf(s, e).batch != []
  {
    SetEpoll(s, e, Epoll(EpollOf(s, e).batch[1..], Pick))
  }

  ghost function Moved(s: State, t: Tid, r: Local): State
    requires At(s, t)
  {
    s.(conns := s.conns[s.threads[t].fd := r.c],
       threads := if r.pc.Some? then s.threads[t := r.pc.value] else s.threads - {t},
       lock := r.lock)
  }

  ghost function Apply(s: State, l: Label): State
    requires Enabled(s, l)
  {
    match l
    case Register(fd, e, onDemand) => SetConn(s, fd, Accepted(e, onDemand))
    case AddReader(fd) => SetConn(s, fd, s.conns[fd].(rd := s.conns[fd].rd.(there := true)))
    case AddWriter(fd) => SetConn(s, fd, s.conns[fd].(wr := s.conns[fd].wr.(there := true)))
    case SetMask(fd) => SetConn(s, fd, s.conns[fd].(added := true, mask := Mask(true, false)))
    case Submit(t, fd, m) => s.(threads := s.threads[t := SendStart(fd, m)])
    case Thread(t, a) => Moved(s, t, Do(t, C(s, t), s.threads[t], s.lock, a))
    case Wait(e, batch) => SetEpoll(s, e, Epoll(batch, Pick))
    case Skip(e) => Next(s, e)
    case HangUp(e) => SetConn(Next(s, e), Head(s, e).fd, s.conns[Head(s, e).fd].(hup := true, kernel := NOTHING))
    case Toggle(e, b) =>
      var c := s.conns[Head(s, e).fd];
      SetEpoll(SetConn(s, Head(s, e).fd, c.(mask := c.mask.Toggled(b))), e, Epoll(EpollOf(s, e).batch, Hold(b)))
        .(lock := ByEpoll(e), raced := s.raced || !c.added)
    case Publish(e) =>
      var ep := EpollOf(s, e);
      SetEpoll(SetConn(s, Head(s, e).fd, Published(s.conns[Head(s, e).fd])), e, Epoll(ep.batch, Hand(ep.phase.b)))
        .(lock := Free)
    case Spawn(e, t) =>
      var ep := EpollOf(s, e);
      var ev := ep.batch[0];
      SetEpoll(s, e, Epoll([ev.(bits := ev.bits.Toggled(ep.phase.b))] + ep.batch[1..], Pick))
        .(threads := s.threads[t := if ep.phase.b == In then ReadQueued(ev.fd) else WriteQueued(ev.fd)])
  }

  // ---------- What every step keeps ----------

  /** The epoll thread is past the toggle of this bit and has not handed the task over. */
  ghost predicate InCallback(s: State, fd: Fd, b: Bit) {
    && fd in s.conns
    && var ep := EpollOf(s, s.conns[fd].owner);
       ep.batch != [] && ep.batch[0].fd == fd && ep.phase != Pick && ep.phase.b == b
  }

  ghost predicate EpollShape(s: State, e: Eid) {
    var ep := EpollOf(s, e);
    && (forall i :: 0 <= i < |ep.batch| ==> ep.batch[i].fd in s.conns && s.conns[ep.batch[i].fd].owner == e)
    && (forall i, j :: 0 <= i < j < |ep.batch| ==> ep.batch[i].fd != ep.batch[j].fd)
    && (ep.phase != Pick ==> ep.batch != [] && !ep.batch[0].err && ep.batch[0].bits.Has(ep.phase.b))
    && (s.lock == ByEpoll(e) <==> ep.phase.Hold?)
  }

  ghost predicate ThreadShape(s: State, t: Tid) {
    t in s.threads ==>
      var pc := s.threads[t];
      && pc.fd in s.conns
      && (pc.SendStart? ==> Sized(pc.m))
      && (pc.Holding() <==> s.lock == ByThread(t))
  }

  ghost predicate Shape(s: State) {
    && (forall e :: EpollShape(s, e))
    && (forall t :: ThreadShape(s, t))
    && (s.lock.ByThread? ==> s.lock.t in s.threads)
    && (forall fd :: fd in s.conns ==> ConnShape(s.conns[fd]))
  }

  ghost predicate ConnShape(c: Conn) {
    && (c.added ==> c.wr.there) && (c.wr.there ==> c.rd.there)
    && (!c.rd.there ==> c.rd.inbox == UNREAD && c.rd.holder == None)
    && (!c.wr.there ==> c.wr.outbox == EMPTY && c.wr.holder == None)
  }

  /** No task and no callback is there for a descriptor that was not added, and nothing was read or sent on it. */
  ghost predicate Timely(s: State) {
    && (forall t :: At(s, t) ==> C(s, t).added)
    && (forall fd, b :: InCallback(s, fd, b) ==> s.conns[fd].added)
    && (forall fd :: fd in s.conns && !s.conns[fd].added ==>
          s.conns[fd].rd.inbox == UNREAD && s.conns[fd].wr.outbox == EMPTY)
  }

  /** The kernel's mask, computed from sfd_events and from who is between updating the one and the other. */
  ghost function KernelOf(s: State, fd: Fd): Mask
    requires Shape(s) && fd in s.conns
  {
    var m := s.conns[fd].mask;
    if s.lock.ByEpoll? && Holds(s, s.lock.e, fd) then m.Armed(EpollOf(s, s.lock.e).phase.b) else m
  }

  // The epoll thread has the descriptor's event at the front.
  ghost predicate Holds(s: State, e: Eid, fd: Fd) {
    EpollOf(s, e).batch != [] && Head(s, e).fd == fd && EpollOf(s, e).phase.Hold?
  }

  ghost predicate MaskOk(s: State, fd: Fd)
    requires Shape(s) && fd in s.conns
  {
    var c := s.conns[fd];
    if !c.added then c.mask == NOTHING && !c.hup ==> c.kernel == Mask(true, false)
    else if c.hup then true
    else if s.lock.ByThread? && s.threads[s.lock.t].fd == fd then
      c.mask == c.kernel.Armed(s.threads[s.lock.t].ArmBit())
    else c.kernel == KernelOf(s, fd)
  }

  /** A delivered event that the callback has not yet toggled. */
  ghost predicate Owed(s: State, e: Eid, i: nat, b: Bit) {
    var ep := EpollOf(s, e);
    && i < |ep.batch| && !ep.batch[i].err && ep.batch[i].bits.Has(b)
    && !(i == 0 && ep.phase != Pick && ep.phase.b == b)
  }

  ghost predicate OwedOk(s: State, e: Eid, i: nat, b: Bit) {
    Owed(s, e, i, b) ==>
      var fd := EpollOf(s, e).batch[i].fd;
      fd in s.conns && (s.conns[fd].mask.Has(b) || (!s.conns[fd].added && b == In))
  }

  ghost predicate Masks(s: State)
    requires Shape(s)
  {
    && Timely(s)
    && (forall fd :: fd in s.conns ==> MaskOk(s, fd))
    && (forall fd :: fd in s.conns && !s.conns[fd].added ==> s.conns[fd].mask == NOTHING)
    && (forall e, i: nat, b: Bit :: OwedOk(s, e, i, b))
    && (forall e, fd :: Holds(s, e, fd) && fd in s.conns ==> !s.conns[fd].mask.Has(EpollOf(s, e).phase.b))
  }

  ghost predicate ReaderOf(s: State, t: Tid, fd: Fd) {
    t in s.threads && s.threads[t].fd == fd && s.threads[t].Reader()
  }

  /** The read token: with the mask, the epoll thread or one read task, or gone because the read side is closed. */
  ghost predicate TokenOk(s: State, fd: Fd)
    requires fd in s.conns
  {
    var c := s.conns[fd];
    && (forall t, u :: ReaderOf(s, t, fd) && ReaderOf(s, u, fd) ==> t == u)
    && (forall t :: ReaderOf(s, t, fd) ==> c.rd.valid && !c.mask.inb && !InCallback(s, fd, In))
    && !(c.mask.inb && InCallback(s, fd, In))
    && (!c.rd.valid ==> !c.mask.inb && !InCallback(s, fd, In))
    && (c.added ==> c.mask.inb || InCallback(s, fd, In) || !c.rd.valid || exists t :: ReaderOf(s, t, fd))
    && (!c.added ==> !c.mask.inb && c.rd.valid)
  }

  ghost predicate Tokens(s: State) {
    forall fd :: fd in s.conns ==> TokenOk(s, fd)
  }

  /** EPOLLOUT is armed, or someone will arm it or empty the buffer. */
  ghost predicate Flushed(s: State, fd: Fd)
    requires fd in s.conns
  {
    s.conns[fd].mask.out || Tended(s, fd)
  }

  /** The epoll thread, a write task or a sender is about to see to the output. */
  ghost predicate Tended(s: State, fd: Fd) {
    InCallback(s, fd, Out) || exists t :: FlusherOf(s, t, fd)
  }

  ghost predicate FlusherOf(s: State, t: Tid, fd: Fd) {
    t in s.threads && s.threads[t].fd == fd && s.threads[t].Flusher()
  }

  ghost predicate HasOutput(s: State, fd: Fd) {
    fd in s.conns && s.conns[fd].wr.valid && s.conns[fd].wr.outbox.buffer != []
  }

  /** A valid writer holds bytes, EPOLLOUT is not armed, and nobody is about to see to it. */
  ghost predicate Stranded(s: State, fd: Fd) {
    HasOutput(s, fd) && !Flushed(s, fd)
  }

  ghost predicate OwnerOk(s: State, t: Tid) {
    t in s.threads ==>
      var pc := s.threads[t];
      && (pc.OwnsWriter() ==> pc.fd in s.conns && s.conns[pc.fd].wr.holder == Some(t) && s.conns[pc.fd].wr.valid)
      && (pc.OwnsReader() ==> pc.fd in s.conns && s.conns[pc.fd].rd.holder == Some(t) && s.conns[pc.fd].rd.valid)
  }

  ghost predicate HeldOk(s: State, fd: Fd)
    requires fd in s.conns
  {
    var c := s.conns[fd];
    && (c.wr.holder.Some? ==>
          var t := c.wr.holder.value; t in s.threads && s.threads[t].fd == fd && s.threads[t].OwnsWriter())
    && (c.rd.holder.Some? ==>
          var t := c.rd.holder.value; t in s.threads && s.threads[t].fd == fd && s.threads[t].OwnsReader())
  }

  /** Who is past the test of a reader or a writer holds its mutex, and it stays valid; and conversely. */
  ghost predicate Locks(s: State) {
    && (forall t :: OwnerOk(s, t))
    && (forall fd :: fd in s.conns ==> HeldOk(s, fd))
  }

  // Someone is between the update of the mask and epoll_ctl.
  ghost predicate Inside(s: State, fd: Fd) {
    || (s.lock.ByThread? && s.lock.t in s.threads && s.threads[s.lock.t].fd == fd)
    || (s.lock.ByEpoll? && Holds(s, s.lock.e, fd))
  }

  ghost predicate OutKnown(s: State, fd: Fd) {
    fd in s.conns ==>
      && (s.conns[fd].mask.out && !s.conns[fd].hup && !Inside(s, fd) ==> s.conns[fd].kernel.out)
      && (s.conns[fd].hup ==> s.conns[fd].kernel == NOTHING)
  }

  ghost predicate InboxOk(i: Inbox) {
    var fed := Feed([], i.received, EOT);
    i.buffer == fed.residue && i.delivered == Delivered(fed.frames)
  }

  ghost predicate Streams(s: State) {
    forall fd :: fd in s.conns ==> Conserves(s.conns[fd].wr.outbox) && InboxOk(s.conns[fd].rd.inbox)
  }

  /** What holds in every run. */
  ghost predicate Base(s: State) {
    Shape(s) && Locks(s) && Streams(s) && forall fd :: OutKnown(s, fd)
  }

  /** What holds as long as no callback has toggled the mask of a descriptor that was not added. */
  ghost predicate Inv(s: State) {
    Base(s) && Masks(s) && Tokens(s)
  }

  // ---------- Steps of a thread ----------

  /** What any action of a thread does to its connection, its program counter and e_mutex. */
  ghost predicate Fits(t: Tid, c: Conn, pc: Pc, lock: Holder, r: Local) {
    && r.c.added == c.added && r.c.hup == c.hup && r.c.owner == c.owner
    && r.c.rd.there == c.rd.there && r.c.wr.there == c.wr.there
    && (r.pc.Some? ==> r.pc.value.fd == pc.fd && !r.pc.value.SendStart?)
    && ConnShape(r.c)
    && FitsLock(t, c, pc, lock, r)
    && FitsFlush(c, pc, r)
    && FitsWriter(t, c, pc, r)
    && FitsReader(t, c, pc, r)
  }

  ghost predicate FitsLock(t: Tid, c: Conn, pc: Pc, lock: Holder, r: Local) {
    if pc.Holding() then
      lock == ByThread(t) && r == Local(r.c, None, Free) && r.c.mask == c.mask && r.c.kernel == Published(c).kernel
    else if r.pc.Some? && r.pc.value.Holding() then
      && lock == Free && r.lock == ByThread(t)
      && r.c.mask == c.mask.Armed(r.pc.value.ArmBit()) && r.c.kernel == c.kernel
    else
      r.lock == lock && r.c.mask == c.mask && r.c.kernel == c.kernel
  }

  ghost predicate FitsToken(c: Conn, pc: Pc, r: Local) {
    var reader := r.pc.Some? && r.pc.value.Reader();
    if pc.Reader() then
      if r.c.mask.inb then !reader && r.c.rd.valid else reader == r.c.rd.valid
    else !reader && r.c.rd.valid == c.rd.valid && r.c.mask.inb == c.mask.inb
  }

  ghost predicate FitsFlush(c: Conn, pc: Pc, r: Local) {
    r.c.wr.valid && r.c.wr.outbox.buffer != [] ==>
      || r.c.mask.out
      || (r.pc.Some? && r.pc.value.Flusher())
      || (!pc.Flusher() && c.wr.valid && c.wr.outbox.buffer != [] && r.c.mask.out == c.mask.out)
  }

  ghost predicate FitsWriter(t: Tid, c: Conn, pc: Pc, r: Local) {
    if r.pc.Some? && r.pc.value.OwnsWriter() then
      (pc.OwnsWriter() || c.wr.holder == None) && r.c.wr.holder == Some(t) && r.c.wr.valid
    else if pc.OwnsWriter() then r.c.wr.holder == None
    else r.c.wr.holder == c.wr.holder && r.c.wr.valid == c.wr.valid
  }

  ghost predicate FitsReader(t: Tid, c: Conn, pc: Pc, r: Local) {
    if r.pc.Some? && r.pc.value.OwnsReader() then
      (pc.OwnsReader() || c.rd.holder == None) && r.c.rd.holder == Some(t) && r.c.rd.valid
    else if pc.OwnsReader() then r.c.rd.holder == None
    else r.c.rd.holder == c.rd.holder && r.c.rd.valid == c.rd.valid
  }

  lemma DoFits(t: Tid, c: Conn, pc: Pc, lock: Holder, a: Act)
    requires Can(c, pc, lock, a) && ConnShape(c)
    requires pc.Holding() ==> lock == ByThread(t)
    requires pc.OwnsWriter() ==> c.wr.holder == Some(t) && c.wr.valid
    requires pc.OwnsReader() ==> c.rd.holder == Some(t) && c.rd.valid
    ensures Fits(t, c, pc, lock, Do(t, c, pc, lock, a))
  {
  }

  lemma DoFitsToken(t: Tid, c: Conn, pc: Pc, lock: Holder, a: Act)
    requires Can(c, pc, lock, a) && c.rd.there
    requires pc.Reader() ==> c.rd.valid && !c.mask.inb
    ensures FitsToken(c, pc, Do(t, c, pc, lock, a))
  {
  }

  lemma DoKeepsStreams(t: Tid, c: Conn, pc: Pc, lock: Holder, a: Act)
    requires Can(c, pc, lock, a) && Conserves(c.wr.outbox) && InboxOk(c.rd.inbox)
    ensures var r := Do(t, c, pc, lock, a).c; Conserves(r.wr.outbox) && InboxOk(r.rd.inbox)
  {
    match a
    case AppendFrame =>
      AfterConserves(c.wr.outbox, Outboxes.Append(pc.m), false);
    case WriteSome(n) =>
      AfterConserves(c.wr.outbox, Outboxes.Write(n), false);
    case Receive(chunk) =>
      FeedAppend([], c.rd.inbox.received, chunk, EOT);
      DeliveredAppend(Feed([], c.rd.inbox.received, EOT).frames, Feed(c.rd.inbox.buffer, chunk, EOT).frames);
    case _ =>
  }

  ghost predicate Apt(s: State, t: Tid, r: Local) {
    At(s, t) && Fits(t, C(s, t), s.threads[t], s.lock, r)
  }

  lemma MovedKeepsShape(s: State, t: Tid, r: Local)
    requires Shape(s) && Apt(s, t, r)
    ensures Shape(Moved(s, t, r))
  {
    var s' := Moved(s, t, r);
    assert forall e :: EpollShape(s, e) && EpollOf(s', e) == EpollOf(s, e);
    forall u
      ensures ThreadShape(s', u)
    {
      assert ThreadShape(s, u) && ThreadShape(s, t);
    }
  }

  lemma MovedKeepsMasks(s: State, t: Tid, r: Local)
    requires Shape(s) && Masks(s) && Apt(s, t, r)
    ensures Shape(Moved(s, t, r)) && Masks(Moved(s, t, r))
  {
    MovedKeepsShape(s, t, r);
    var s' := Moved(s, t, r);
    MovedKeepsTimely(s, t, r);
    assert forall e :: EpollOf(s', e) == EpollOf(s, e);
    forall e, fd | Holds(s', e, fd) && fd in s'.conns
      ensures !s'.conns[fd].mask.Has(EpollOf(s', e).phase.b)
    {
      assert Holds(s, e, fd) && EpollShape(s, e);
    }
    forall e, i: nat, b: Bit
      ensures OwedOk(s', e, i, b)
    {
      assert OwedOk(s, e, i, b);
    }
    forall fd | fd in s'.conns
      ensures MaskOk(s', fd)
    {
      assert MaskOk(s, fd);
      MovedKeepsMask(s, t, r, fd);
    }
  }

  lemma MovedKeepsTimely(s: State, t: Tid, r: Local)
    requires Timely(s) && Apt(s, t, r)
    ensures Timely(Moved(s, t, r))
  {
    var s' := Moved(s, t, r);
    assert forall fd, b :: InCallback(s', fd, b) <==> InCallback(s, fd, b);
    forall u | At(s', u)
      ensures C(s', u).added
    {
      assert u != t ==> At(s, u);
    }
  }

  lemma MovedKeepsMask(s: State, t: Tid, r: Local, fd: Fd)
    requires Shape(s) && Masks(s) && Apt(s, t, r) && fd in s.conns && Shape(Moved(s, t, r))
    ensures MaskOk(Moved(s, t, r), fd)
  {
    assert MaskOk(s, fd) && ThreadShape(s, t);
  }

  lemma MovedKeepsTokens(s: State, t: Tid, r: Local)
    requires Tokens(s) && Apt(s, t, r) && C(s, t).added && FitsToken(C(s, t), s.threads[t], r)
    ensures Tokens(Moved(s, t, r))
  {
    var s' := Moved(s, t, r);
    forall fd | fd in s'.conns
      ensures TokenOk(s', fd)
    {
      assert TokenOk(s, fd);
      assert forall b :: InCallback(s', fd, b) <==> InCallback(s, fd, b);
      assert forall u :: u != t ==> (ReaderOf(s', u, fd) <==> ReaderOf(s, u, fd));
      if fd == s.threads[t].fd {
        assert ReaderOf(s, t, fd) <==> s.threads[t].Reader();
        assert ReaderOf(s', t, fd) <==> r.pc.Some? && r.pc.value.Reader();
      }
    }
  }

  lemma MovedStrandsNothing(s: State, t: Tid, r: Local, fd: Fd)
    requires Apt(s, t, r) && !Stranded(s, fd)
    ensures !Stranded(Moved(s, t, r), fd)
  {
    var s' := Moved(s, t, r);
    if HasOutput(s', fd) {
      assert InCallback(s', fd, Out) <==> InCallback(s, fd, Out);
      assert forall u :: u != t && FlusherOf(s, u, fd) ==> FlusherOf(s', u, fd);
      if fd == s.threads[t].fd {
        assert FlusherOf(s, t, fd) <==> s.threads[t].Flusher();
        assert FlusherOf(s', t, fd) <==> r.pc.Some? && r.pc.value.Flusher();
      }
    }
  }

  lemma MovedKeepsLocks(s: State, t: Tid, r: Local)
    requires Locks(s) && Apt(s, t, r)
    ensures Locks(Moved(s, t, r))
  {
    var s' := Moved(s, t, r);
    forall u
      ensures OwnerOk(s', u)
    {
      assert OwnerOk(s, u) && OwnerOk(s, t);
    }
    forall fd | fd in s'.conns
      ensures HeldOk(s', fd)
    {
      assert HeldOk(s, fd) && OwnerOk(s, t);
    }
  }

  lemma MovedKeepsOut(s: State, t: Tid, r: Local, fd: Fd)
    requires Shape(s) && OutKnown(s, fd) && Apt(s, t, r)
    ensures OutKnown(Moved(s, t, r), fd)
  {
    assert ThreadShape(s, t);
    var s' := Moved(s, t, r);
    assert forall e :: Holds(s', e, fd) <==> Holds(s, e, fd);
  }

  lemma ThreadKeepsBase(s: State, t: Tid, a: Act)
    requires Base(s) && Enabled(s, Thread(t, a))
    ensures Apt(s, t, Do(t, C(s, t), s.threads[t], s.lock, a))
    ensures Base(Apply(s, Thread(t, a)))
  {
    var r := Do(t, C(s, t), s.threads[t], s.lock, a);
    assert ThreadShape(s, t) && OwnerOk(s, t);
    DoFits(t, C(s, t), s.threads[t], s.lock, a);
    MovedKeepsShape(s, t, r);
    MovedKeepsLocks(s, t, r);
    KeepsStreams(s, Thread(t, a));
    forall fd
      ensures OutKnown(Apply(s, Thread(t, a)), fd)
    {
      MovedKeepsOut(s, t, r, fd);
    }
  }

  // ---------- The other steps ----------

  predicate OfEpoll(l: Label) {
    l.Wait? || l.Skip? || l.HangUp? || l.Toggle? || l.Publish? || l.Spawn?
  }

  // What a step of one epoll thread does to the others.
  lemma OtherEpolls(s: State, l: Label, e: Eid)
    requires Enabled(s, l) && !(OfEpoll(l) && e == l.e)
    ensures EpollOf(Apply(s, l), e) == EpollOf(s, e)
  {
  }

  // What a step that is not of a thread may do to a connection.
  ghost predicate Same(c: Conn, c': Conn) {
    && c'.owner == c.owner && (c.added ==> c'.added) && (c.hup ==> c'.hup)
    && c'.rd == c.rd.(there := c'.rd.there) && (c.rd.there ==> c'.rd.there)
    && c'.wr == c.wr.(there := c'.wr.there) && (c.wr.there ==> c'.wr.there)
  }

  lemma ConnStep(s: State, l: Label, fd: Fd)
    requires Enabled(s, l) && !l.Thread? && fd in s.conns
    ensures fd in Apply(s, l).conns && Same(s.conns[fd], Apply(s, l).conns[fd])
    ensures Apply(s, l).conns[fd].added && !s.conns[fd].added ==> l == SetMask(fd)
  {
    if OfEpoll(l) {
      EpollConnStep(s, l, fd);
    }
  }

  lemma EpollConnStep(s: State, l: Label, fd: Fd)
    requires Enabled(s, l) && OfEpoll(l) && fd in s.conns
    ensures fd in Apply(s, l).conns && Same(s.conns[fd], Apply(s, l).conns[fd])
    ensures Apply(s, l).conns[fd].added == s.conns[fd].added
  {
    if l.Toggle? || l.Publish? || l.HangUp? {
    } else {
      assert Apply(s, l).conns == s.conns;
    }
  }

  lemma NewConn(s: State, l: Label, fd: Fd)
    requires Enabled(s, l) && !l.Thread? && fd !in s.conns && fd in Apply(s, l).conns
    ensures l.Register? && l.fd == fd && Apply(s, l).conns[fd] == Accepted(l.e, l.onDemand)
  {
  }

  lemma ThreadsStep(s: State, l: Label, t: Tid)
    requires Enabled(s, l) && !l.Thread?
    ensures var s' := Apply(s, l);
            && (t in s.threads ==> t in s'.threads && s'.threads[t] == s.threads[t])
            && (t in s'.threads && t !in s.threads ==>
                  (l.Submit? && l.t == t && s'.threads[t] == SendStart(l.fd, l.m)) || SpawnedBy(s, l, t))
  {
  }

  ghost predicate SpawnedBy(s: State, l: Label, t: Tid)
    requires Enabled(s, l) && !l.Thread?
  {
    && l.Spawn? && l.t == t
    && var ep := EpollOf(s, l.e);
       Apply(s, l).threads[t] == if ep.phase.b == In then ReadQueued(ep.batch[0].fd) else WriteQueued(ep.batch[0].fd)
  }

  lemma KeepsEpollShape(s: State, l: Label, e: Eid)
    requires Shape(s) && !l.Thread? && Enabled(s, l)
    ensures EpollShape(Apply(s, l), e)
  {
    assert EpollShape(s, e);
    if OfEpoll(l) && l.e == e {
      OwnShape(s, l);
    } else {
      OtherEpolls(s, l, e);
      var s' := Apply(s, l);
      assert OfEpoll(l) ==> EpollShape(s, l.e);
      assert s'.lock == ByEpoll(e) <==> s.lock == ByEpoll(e);
      forall i | 0 <= i < |EpollOf(s, e).batch|
        ensures var fd := EpollOf(s, e).batch[i].fd; fd in s'.conns && s'.conns[fd].owner == e
      {
        ConnStep(s, l, EpollOf(s, e).batch[i].fd);
      }
    }
  }

  lemma OwnShape(s: State, l: Label)
    requires Shape(s) && OfEpoll(l) && Enabled(s, l)
    ensures EpollShape(Apply(s, l), l.e)
  {
    assert EpollShape(s, l.e);
    OwnersStay(s, l);
    if l.Skip? || l.HangUp? {
    } else if l.Wait? {
      assert EpollOf(Apply(s, l), l.e) == Epoll(l.batch, Pick);
    }
  }

  lemma OwnersStay(s: State, l: Label)
    requires Enabled(s, l) && !l.Thread?
    ensures forall fd :: fd in s.conns ==>
              fd in Apply(s, l).conns && Apply(s, l).conns[fd].owner == s.conns[fd].owner
  {
  }

  lemma KeepsThreadShape(s: State, l: Label, t: Tid)
    requires Shape(s) && !l.Thread? && Enabled(s, l)
    ensures ThreadShape(Apply(s, l), t)
  {
    ThreadsStep(s, l, t);
    assert ThreadShape(s, t);
    assert OfEpoll(l) ==> EpollShape(s, l.e);
    if t in s.threads {
      ConnStep(s, l, s.threads[t].fd);
    }
  }

  lemma KeepsShape(s: State, l: Label)
    requires Shape(s) && !l.Thread? && Enabled(s, l)
    ensures Shape(Apply(s, l))
  {
    forall e
      ensures EpollShape(Apply(s, l), e)
    {
      KeepsEpollShape(s, l, e);
    }
    forall t
      ensures ThreadShape(Apply(s, l), t)
    {
      KeepsThreadShape(s, l, t);
    }
    forall fd | fd in Apply(s, l).conns
      ensures ConnShape(Apply(s, l).conns[fd])
    {
    }
  }

  /** No step, not even one that races, disturbs the two byte streams of a connection. */
  lemma KeepsStreams(s: State, l: Label)
    requires Streams(s) && Enabled(s, l)
    ensures Streams(Apply(s, l))
  {
    if l.Thread? {
      DoKeepsStreams(l.t, C(s, l.t), s.threads[l.t], s.lock, l.a);
    } else if l.Register? {
      assert Conserves(EMPTY);
    }
  }

  /** The step sets the mask of a descriptor whose EPOLLOUT is armed, with output that nobody else sees to. */
  ghost predicate Strands(s: State, l: Label, fd: Fd) {
    l == SetMask(fd) && HasOutput(s, fd) && s.conns[fd].mask.out && !Tended(s, fd)
  }

  /** Only such a step strands output, and it always does. */
  lemma StrandStep(s: State, l: Label, fd: Fd)
    requires Base(s) && Enabled(s, l) && !Stranded(s, fd)
    ensures Stranded(Apply(s, l), fd) <==> Strands(s, l, fd)
  {
    if l.Thread? {
      ThreadKeepsBase(s, l.t, l.a);
      MovedStrandsNothing(s, l.t, Do(l.t, C(s, l.t), s.threads[l.t], s.lock, l.a), fd);
    } else if fd !in s.conns {
      if fd in Apply(s, l).conns {
        NewConn(s, l, fd);
      }
    } else {
      ConnStep(s, l, fd);
      if HasOutput(s, fd) {
        if l == SetMask(fd) {
          SetMaskStrands(s, fd);
        } else {
          KeepsFlushed(s, l, fd);
        }
      }
    }
  }

  lemma SetMaskStrands(s: State, fd: Fd)
    requires Enabled(s, SetMask(fd))
    ensures fd in Apply(s, SetMask(fd)).conns
    ensures Flushed(Apply(s, SetMask(fd)), fd) <==> Tended(s, fd)
  {
    var s' := Apply(s, SetMask(fd));
    assert InCallback(s', fd, Out) <==> InCallback(s, fd, Out);
    assert forall t :: FlusherOf(s', t, fd) <==> FlusherOf(s, t, fd);
  }

  lemma KeepsFlushed(s: State, l: Label, fd: Fd)
    requires Shape(s) && !l.Thread? && l != SetMask(fd) && Enabled(s, l)
    requires fd in s.conns && Flushed(s, fd)
    ensures fd in Apply(s, l).conns && Flushed(Apply(s, l), fd)
  {
    var s' := Apply(s, l);
    ConnStep(s, l, fd);
    InCallbackStep(s, l, fd, Out);
    if t :| FlusherOf(s, t, fd) {
      ThreadsStep(s, l, t);
      assert FlusherOf(s', t, fd);
    }
    if InCallback(s, fd, Out) && l.Spawn? && l.e == s.conns[fd].owner {
      assert FlusherOf(s', l.t, fd);
    }
    OutMaskStep(s, l, fd);
  }

  lemma OutMaskStep(s: State, l: Label, fd: Fd)
    requires Shape(s) && !l.Thread? && l != SetMask(fd) && Enabled(s, l) && fd in s.conns
    ensures fd in Apply(s, l).conns
    ensures s.conns[fd].mask.out && !InCallback(Apply(s, l), fd, Out) ==> Apply(s, l).conns[fd].mask.out
  {
    ConnStep(s, l, fd);
    if l.Toggle? {
      assert EpollShape(s, l.e);
    }
  }

  lemma InCallbackStep(s: State, l: Label, fd: Fd, b: Bit)
    requires Shape(s) && !l.Thread? && Enabled(s, l)
    ensures InCallback(Apply(s, l), fd, b) <==>
              (InCallback(s, fd, b) && !(l.Spawn? && l.e == s.conns[fd].owner))
              || (l.Toggle? && l.b == b && fd == Head(s, l.e).fd)
  {
    var s' := Apply(s, l);
    if fd in s.conns {
      var e := s.conns[fd].owner;
      ConnStep(s, l, fd);
      assert EpollShape(s, e);
      if OfEpoll(l) {
        assert EpollShape(s, l.e);
        CallbackOfOwn(s, l, fd, b);
      } else {
        OtherEpolls(s, l, e);
      }
    } else {
      if fd in s'.conns {
        NewConn(s, l, fd);
        assert EpollShape(s, l.e);
      }
      assert l.Toggle? ==> EpollShape(s, l.e);
    }
  }

  lemma CallbackOfOwn(s: State, l: Label, fd: Fd, b: Bit)
    requires Shape(s) && OfEpoll(l) && Enabled(s, l) && fd in s.conns && EpollShape(s, l.e)
    ensures InCallback(Apply(s, l), fd, b) <==>
              (InCallback(s, fd, b) && !(l.Spawn? && l.e == s.conns[fd].owner))
              || (l.Toggle? && l.b == b && fd == Head(s, l.e).fd)
  {
    ConnStep(s, l, fd);
    if l.e != s.conns[fd].owner {
      OtherEpolls(s, l, s.conns[fd].owner);
    }
  }

  lemma KeepsLocks(s: State, l: Label)
    requires Locks(s) && !l.Thread? && Enabled(s, l)
    ensures Locks(Apply(s, l))
  {
    var s' := Apply(s, l);
    forall t
      ensures OwnerOk(s', t)
    {
      ThreadsStep(s, l, t);
      assert OwnerOk(s, t);
      if t in s.threads && s.threads[t].fd in s.conns {
        ConnStep(s, l, s.threads[t].fd);
      }
    }
    forall fd | fd in s'.conns
      ensures HeldOk(s', fd)
    {
      if fd in s.conns {
        KeepsHolders(s, l, fd);
      } else {
        NewConn(s, l, fd);
      }
    }
  }

  lemma KeepsHolders(s: State, l: Label, fd: Fd)
    requires Enabled(s, l) && !l.Thread? && fd in s.conns && HeldOk(s, fd)
    ensures fd in Apply(s, l).conns && HeldOk(Apply(s, l), fd)
  {
    var c := s.conns[fd];
    ConnStep(s, l, fd);
    if c.wr.holder.Some? {
      ThreadsStep(s, l, c.wr.holder.value);
    }
    if c.rd.holder.Some? {
      ThreadsStep(s, l, c.rd.holder.value);
    }
  }

  lemma KeepsOut(s: State, l: Label, fd: Fd)
    requires Shape(s) && OutKnown(s, fd) && !l.Thread? && Enabled(s, l)
    ensures OutKnown(Apply(s, l), fd)
  {
    if fd in s.conns {
      if OfEpoll(l) {
        assert EpollShape(s, l.e);
      } else {
        OtherKeepsOut(s, l, fd);
      }
    } else if fd in Apply(s, l).conns {
      NewConn(s, l, fd);
    }
  }

  lemma OtherKeepsOut(s: State, l: Label, fd: Fd)
    requires Shape(s) && OutKnown(s, fd) && !l.Thread? && !OfEpoll(l) && Enabled(s, l) && fd in s.conns
    ensures OutKnown(Apply(s, l), fd)
  {
    var s' := Apply(s, l);
    assert s'.lock == s.lock && s'.epolls == s.epolls;
    assert s.lock.ByThread? ==> s.lock.t in s'.threads && s'.threads[s.lock.t] == s.threads[s.lock.t];
  }

  /** Every step keeps the base of the invariant, even one that races. */
  lemma BaseKeeps(s: State, l: Label)
    requires Base(s) && Enabled(s, l)
    ensures Base(Apply(s, l))
  {
    if l.Thread? {
      ThreadKeepsBase(s, l.t, l.a);
    } else {
      KeepsShape(s, l);
      KeepsLocks(s, l);
      KeepsStreams(s, l);
      forall fd
        ensures OutKnown(Apply(s, l), fd)
      {
        KeepsOut(s, l, fd);
      }
    }
  }

  lemma KeepsTimely(s: State, l: Label)
    requires Shape(s) && Timely(s) && !l.Thread? && Enabled(s, l) && !Apply(s, l).raced
    ensures Timely(Apply(s, l))
  {
    var s' := Apply(s, l);
    forall t | At(s', t)
      ensures C(s', t).added
    {
      ThreadStaysTimely(s, l, t);
    }
    forall fd, b | InCallback(s', fd, b)
      ensures s'.conns[fd].added
    {
      InCallbackStep(s, l, fd, b);
      if fd in s.conns {
        ConnStep(s, l, fd);
      }
    }
    forall fd | fd in s'.conns && !s'.conns[fd].added
      ensures s'.conns[fd].rd.inbox == UNREAD && s'.conns[fd].wr.outbox == EMPTY
    {
      if fd in s.conns {
        ConnStep(s, l, fd);
      } else {
        NewConn(s, l, fd);
      }
    }
  }

  lemma ThreadStaysTimely(s: State, l: Label, t: Tid)
    requires Shape(s) && Timely(s) && !l.Thread? && Enabled(s, l) && At(Apply(s, l), t)
    ensures C(Apply(s, l), t).added
  {
    ThreadsStep(s, l, t);
    if t in s.threads {
      assert ThreadShape(s, t) && At(s, t);
      ConnStep(s, l, s.threads[t].fd);
    } else if SpawnedBy(s, l, t) {
      var ep := EpollOf(s, l.e);
      assert EpollShape(s, l.e);
      assert InCallback(s, ep.batch[0].fd, ep.phase.b);
    }
  }

  lemma KeepsMasks(s: State, l: Label)
    requires Shape(s) && Masks(s) && !l.Thread? && Enabled(s, l) && !Apply(s, l).raced
    ensures Shape(Apply(s, l)) && Masks(Apply(s, l))
  {
    KeepsShape(s, l);
    KeepsTimely(s, l);
    var s' := Apply(s, l);
    forall fd | fd in s'.conns
      ensures MaskOk(s', fd) && (!s'.conns[fd].added ==> s'.conns[fd].mask == NOTHING)
    {
      KeepsMask(s, l, fd);
    }
    forall e, i: nat, b: Bit
      ensures OwedOk(s', e, i, b)
    {
      KeepsOwed(s, l, e, i, b);
    }
    forall e, fd | Holds(s', e, fd) && fd in s'.conns
      ensures !s'.conns[fd].mask.Has(EpollOf(s', e).phase.b)
    {
      KeepsHeld(s, l, e, fd);
    }
  }

  /** The bit that a callback is about to toggle is set, unless the descriptor was not added. */
  lemma ToggledIsSet(s: State, e: Eid, b: Bit)
    requires Shape(s) && Masks(s) && Enabled(s, Toggle(e, b))
    ensures var c := s.conns[Head(s, e).fd]; c.mask.Has(b) <==> c.added
    ensures !s.conns[Head(s, e).fd].added ==> b == In
  {
    assert Owed(s, e, 0, b) && OwedOk(s, e, 0, b);
  }

  lemma KeepsMask(s: State, l: Label, fd: Fd)
    requires Shape(s) && Masks(s) && !l.Thread? && Enabled(s, l) && !Apply(s, l).raced && Shape(Apply(s, l))
    requires fd in Apply(s, l).conns
    ensures MaskOk(Apply(s, l), fd)
    ensures !Apply(s, l).conns[fd].added ==> Apply(s, l).conns[fd].mask == NOTHING
  {
    if fd !in s.conns {
      NewConn(s, l, fd);
    } else {
      assert MaskOk(s, fd);
      if l.Toggle? {
        ToggledIsSet(s, l.e, l.b);
        assert EpollShape(s, l.e);
      } else if l.Publish? {
        assert EpollShape(s, l.e);
        assert Head(s, l.e).fd == fd ==> InCallback(s, fd, EpollOf(s, l.e).phase.b);
      } else {
        MaskStays(s, l, fd);
      }
    }
  }

  lemma MaskStays(s: State, l: Label, fd: Fd)
    requires Shape(s) && Masks(s) && !l.Thread? && !l.Toggle? && !l.Publish? && Enabled(s, l) && Shape(Apply(s, l))
    requires fd in s.conns
    ensures fd in Apply(s, l).conns && MaskOk(Apply(s, l), fd)
    ensures !Apply(s, l).conns[fd].added ==> Apply(s, l).conns[fd].mask == NOTHING
  {
    assert MaskOk(s, fd);
    if l != SetMask(fd) {
      MaskAndKernelStay(s, l, fd);
      HoldersStay(s, l, fd);
    }
  }

  lemma MaskAndKernelStay(s: State, l: Label, fd: Fd)
    requires !l.Thread? && !l.Toggle? && !l.Publish? && l != SetMask(fd) && Enabled(s, l) && fd in s.conns
    ensures fd in Apply(s, l).conns
    ensures var c, c' := s.conns[fd], Apply(s, l).conns[fd];
            c'.added == c.added && c'.mask == c.mask && (c'.kernel == c.kernel || c'.hup) && (c.hup ==> c'.hup)
  {
  }

  lemma HoldersStay(s: State, l: Label, fd: Fd)
    requires Shape(s) && !l.Thread? && !l.Toggle? && !l.Publish? && Enabled(s, l)
    ensures Apply(s, l).lock == s.lock
    ensures s.lock.ByEpoll? ==> EpollOf(Apply(s, l), s.lock.e) == EpollOf(s, s.lock.e)
    ensures s.lock.ByThread? ==>
              var t := s.lock.t;
              t in s.threads && t in Apply(s, l).threads && Apply(s, l).threads[t] == s.threads[t]
  {
    if s.lock.ByEpoll? {
      assert EpollShape(s, s.lock.e);
      OtherEpolls(s, l, s.lock.e);
    } else if s.lock.ByThread? {
      ThreadsStep(s, l, s.lock.t);
    }
  }

  lemma KeepsHeld(s: State, l: Label, e: Eid, fd: Fd)
    requires Shape(s) && Masks(s) && !l.Thread? && Enabled(s, l) && !Apply(s, l).raced && Shape(Apply(s, l))
    requires Holds(Apply(s, l), e, fd) && fd in Apply(s, l).conns
    ensures !Apply(s, l).conns[fd].mask.Has(EpollOf(Apply(s, l), e).phase.b)
  {
    if OfEpoll(l) && l.e == e {
      OwnHeld(s, l, fd);
    } else {
      OtherHeld(s, l, e, fd);
    }
  }

  lemma OwnHeld(s: State, l: Label, fd: Fd)
    requires Shape(s) && Masks(s) && OfEpoll(l) && Enabled(s, l) && !Apply(s, l).raced
    requires Holds(Apply(s, l), l.e, fd) && fd in Apply(s, l).conns
    ensures !Apply(s, l).conns[fd].mask.Has(EpollOf(Apply(s, l), l.e).phase.b)
  {
    assert l.Toggle?;
    ToggledIsSet(s, l.e, l.b);
  }

  lemma OtherHeld(s: State, l: Label, e: Eid, fd: Fd)
    requires Shape(s) && Masks(s) && !l.Thread? && !(OfEpoll(l) && l.e == e) && Enabled(s, l)
    requires Holds(Apply(s, l), e, fd)
    ensures fd in Apply(s, l).conns
    ensures !Apply(s, l).conns[fd].mask.Has(EpollOf(Apply(s, l), e).phase.b)
  {
    OtherEpolls(s, l, e);
    assert EpollShape(s, e) && Holds(s, e, fd) && s.lock == ByEpoll(e);
    ConnStep(s, l, fd);
    HeldMaskStays(s, l, fd);
  }

  lemma HeldMaskStays(s: State, l: Label, fd: Fd)
    requires Enabled(s, l) && !l.Thread? && s.lock != Free && fd in s.conns
    ensures fd in Apply(s, l).conns && Apply(s, l).conns[fd].mask == s.conns[fd].mask
  {
  }

  lemma KeepsOwed(s: State, l: Label, e: Eid, i: nat, b: Bit)
    requires Shape(s) && Masks(s) && !l.Thread? && Enabled(s, l)
    ensures OwedOk(Apply(s, l), e, i, b)
  {
    var s' := Apply(s, l);
    if Owed(s', e, i, b) {
      assert EpollShape(s, e);
      if OfEpoll(l) && l.e == e {
        OwnOwed(s, l, i, b);
      } else {
        OtherEpolls(s, l, e);
        assert Owed(s, e, i, b) && OwedOk(s, e, i, b);
        OtherMask(s, l, EpollOf(s, e).batch[i].fd, b);
      }
    }
  }

  /** A step that is not of the descriptor's epoll thread keeps the bits of its mask that are owed. */
  lemma OtherMask(s: State, l: Label, fd: Fd, b: Bit)
    requires Shape(s) && !l.Thread? && Enabled(s, l) && fd in s.conns && !(OfEpoll(l) && l.e == s.conns[fd].owner)
    requires s.conns[fd].mask.Has(b) || (!s.conns[fd].added && b == In)
    requires !s.conns[fd].added ==> s.conns[fd].mask == NOTHING
    ensures fd in Apply(s, l).conns
    ensures var c := Apply(s, l).conns[fd]; c.mask.Has(b) || (!c.added && b == In)
  {
    ConnStep(s, l, fd);
    if OfEpoll(l) {
      assert EpollShape(s, l.e);
    }
  }

  lemma OwnOwed(s: State, l: Label, i: nat, b: Bit)
    requires Shape(s) && Masks(s) && OfEpoll(l) && Enabled(s, l) && Owed(Apply(s, l), l.e, i, b)
    ensures OwedOk(Apply(s, l), l.e, i, b)
  {
    assert EpollShape(s, l.e);
    if l.Wait? {
      WaitOwed(s, l, i, b);
    } else if l.Skip? || l.HangUp? {
      PoppedOwed(s, l, i, b);
    } else {
      SameBatchOwed(s, l, i, b);
    }
  }

  lemma PoppedOwed(s: State, l: Label, i: nat, b: Bit)
    requires Shape(s) && Masks(s) && (l.Skip? || l.HangUp?) && Enabled(s, l) && Owed(Apply(s, l), l.e, i, b)
    ensures OwedOk(Apply(s, l), l.e, i, b)
  {
    assert Owed(s, l.e, i + 1, b) && OwedOk(s, l.e, i + 1, b);
  }

  lemma SameBatchOwed(s: State, l: Label, i: nat, b: Bit)
    requires Shape(s) && Masks(s) && (l.Toggle? || l.Publish? || l.Spawn?) && Enabled(s, l)
    requires EpollShape(s, l.e) && Owed(Apply(s, l), l.e, i, b)
    ensures OwedOk(Apply(s, l), l.e, i, b)
  {
    assert Owed(s, l.e, i, b) && OwedOk(s, l.e, i, b);
  }

  // What the kernel reports has its bit in sfd_events, whoever is between updating the one and the other.
  lemma WaitOwed(s: State, l: Label, i: nat, b: Bit)
    requires Shape(s) && Masks(s) && l.Wait? && Enabled(s, l) && i < |l.batch| && l.batch[i].bits.Has(b)
    ensures var c := s.conns[l.batch[i].fd]; c.mask.Has(b) || (!c.added && b == In)
  {
    var fd := l.batch[i].fd;
    assert MaskOk(s, fd);
    if s.lock.ByEpoll? {
      assert EpollShape(s, s.lock.e);
    }
  }

  lemma KeepsTokens(s: State, l: Label)
    requires Shape(s) && Masks(s) && Tokens(s) && !l.Thread? && Enabled(s, l) && !Apply(s, l).raced
    ensures Tokens(Apply(s, l))
  {
    var s' := Apply(s, l);
    forall fd | fd in s'.conns
      ensures TokenOk(s', fd)
    {
      if fd in s.conns {
        KeepsToken(s, l, fd);
      } else {
        NewToken(s, l, fd);
      }
    }
  }

  lemma NewToken(s: State, l: Label, fd: Fd)
    requires Shape(s) && !l.Thread? && Enabled(s, l) && fd !in s.conns && fd in Apply(s, l).conns
    ensures TokenOk(Apply(s, l), fd)
  {
    var s' := Apply(s, l);
    NewConn(s, l, fd);
    InCallbackStep(s, l, fd, In);
    forall t
      ensures !ReaderOf(s', t, fd)
    {
      ThreadsStep(s, l, t);
      assert ThreadShape(s, t);
    }
  }

  lemma KeepsToken(s: State, l: Label, fd: Fd)
    requires Shape(s) && Masks(s) && !l.Thread? && Enabled(s, l) && !Apply(s, l).raced
    requires fd in s.conns && TokenOk(s, fd)
    ensures fd in Apply(s, l).conns && TokenOk(Apply(s, l), fd)
  {
    ConnStep(s, l, fd);
    if l.Spawn? {
      SpawnKeepsToken(s, l, fd);
    } else {
      ReadersStay(s, l, fd);
      InCallbackStep(s, l, fd, In);
      if l.Toggle? {
        ToggledIsSet(s, l.e, l.b);
      }
      assert forall u :: ReaderOf(s, u, fd) ==> At(s, u);
      InMaskStep(s, l, fd);
    }
  }

  lemma ReadersStay(s: State, l: Label, fd: Fd)
    requires Enabled(s, l) && !l.Thread? && !l.Spawn?
    ensures forall u :: ReaderOf(Apply(s, l), u, fd) <==> ReaderOf(s, u, fd)
  {
    forall u
      ensures ReaderOf(Apply(s, l), u, fd) <==> ReaderOf(s, u, fd)
    {
      ThreadsStep(s, l, u);
    }
  }

  lemma InMaskStep(s: State, l: Label, fd: Fd)
    requires Enabled(s, l) && !l.Thread? && fd in s.conns
    ensures fd in Apply(s, l).conns
    ensures Apply(s, l).conns[fd].mask.inb ==
              if l == SetMask(fd) then true
              else if l.Toggle? && l.b == In && Head(s, l.e).fd == fd then !s.conns[fd].mask.inb
              else s.conns[fd].mask.inb
  {
  }

  lemma SpawnKeepsToken(s: State, l: Label, fd: Fd)
    requires Shape(s) && l.Spawn? && Enabled(s, l) && fd in s.conns && TokenOk(s, fd)
    ensures TokenOk(Apply(s, l), fd)
  {
    var s' := Apply(s, l);
    InCallbackStep(s, l, fd, In);
    assert EpollShape(s, l.e);
    assert forall u :: u != l.t ==> (ReaderOf(s', u, fd) <==> ReaderOf(s, u, fd));
    assert ReaderOf(s', l.t, fd) <==> InCallback(s, fd, In) && l.e == s.conns[fd].owner;
  }

  /** One step keeps the invariant, unless it is a toggle for a descriptor that was not added. */
  lemma StepKeeps(s: State, l: Label)
    requires Inv(s) && Enabled(s, l) && !Apply(s, l).raced
    ensures Inv(Apply(s, l))
  {
    BaseKeeps(s, l);
    if l.Thread? {
      var t := l.t;
      var r := Do(t, C(s, t), s.threads[t], s.lock, l.a);
      assert C(s, t).added;
      assert s.threads[t].Reader() ==> ReaderOf(s, t, s.threads[t].fd);
      assert TokenOk(s, s.threads[t].fd);
      ThreadKeepsBase(s, t, l.a);
      DoFitsToken(t, C(s, t), s.threads[t], s.lock, l.a);
      MovedKeepsMasks(s, t, r);
      MovedKeepsTokens(s, t, r);
    } else {
      KeepsMasks(s, l);
      KeepsTokens(s, l);
    }
  }

  // ---------- Whole runs ----------

  ghost predicate IsRun(ss: seq<State>, ls: seq<Label>) {
    && |ss| == |ls| + 1 && ss[0] == INITIAL
    && forall i :: 0 <= i < |ls| ==> Enabled(ss[i], ls[i]) && ss[i + 1] == Apply(ss[i], ls[i])
  }

  /** Every state of every run; the whole invariant, as long as no toggle has come before `add`. */
  lemma {:induction false} RunKeeps(ss: seq<State>, ls: seq<Label>, i: nat)
    requires IsRun(ss, ls) && i <= |ls|
    ensures Base(ss[i])
    ensures !ss[i].raced ==> Inv(ss[i])
  {
    if i > 0 {
      RunKeeps(ss, ls, i - 1);
      BothKeep(ss[i - 1], ls[i - 1], ss[i]);
    }
  }

  lemma BothKeep(s: State, l: Label, s': State)
    requires Base(s) && (!s.raced ==> Inv(s)) && Enabled(s, l) && s' == Apply(s, l)
    ensures Base(s') && (!s'.raced ==> Inv(s'))
  {
    BaseKeeps(s, l);
    if !s'.raced {
      RacedStays(s, l);
      StepKeeps(s, l);
    }
  }

  lemma RacedStays(s: State, l: Label)
    requires Enabled(s, l) && !Apply(s, l).raced
    ensures !s.raced
  {
  }

  /** Every event that epoll_wait returns is of a descriptor that was added. */
  ghost predicate AddFirst(ss: seq<State>, ls: seq<Label>) {
    && |ss| == |ls| + 1
    && forall i :: 0 <= i < |ls| && ls[i].Wait? ==> AllAdded(ss[i], ls[i].batch)
  }

  ghost predicate AllAdded(s: State, batch: seq<Event>) {
    forall k :: 0 <= k < |batch| ==> batch[k].fd in s.conns && s.conns[batch[k].fd].added
  }

  lemma {:induction false} BatchesAdded(ss: seq<State>, ls: seq<Label>, i: nat)
    requires IsRun(ss, ls) && AddFirst(ss, ls) && i <= |ls|
    ensures !ss[i].raced && forall e :: AllAdded(ss[i], EpollOf(ss[i], e).batch)
  {
    if i > 0 {
      var s, l := ss[i - 1], ls[i - 1];
      BatchesAdded(ss, ls, i - 1);
      RunKeeps(ss, ls, i - 1);
      assert OfEpoll(l) && !l.Wait? ==> AllAdded(s, EpollOf(s, l.e).batch);
      forall e
        ensures AllAdded(ss[i], EpollOf(ss[i], e).batch)
      {
        assert AllAdded(s, EpollOf(s, e).batch);
        BatchStep(s, l, e);
      }
    }
  }

  lemma BatchStep(s: State, l: Label, e: Eid)
    requires Base(s) && Enabled(s, l)
    requires AllAdded(s, EpollOf(s, e).batch) && (l.Wait? && l.e == e ==> AllAdded(s, l.batch))
    ensures AllAdded(Apply(s, l), EpollOf(Apply(s, l), e).batch)
  {
    if !(OfEpoll(l) && e == l.e) {
      OtherEpolls(s, l, e);
    }
    AddedStays(s, l);
  }

  lemma AddedStays(s: State, l: Label)
    requires Base(s) && Enabled(s, l)
    ensures forall fd :: fd in s.conns && s.conns[fd].added ==> fd in Apply(s, l).conns && Apply(s, l).conns[fd].added
  {
    forall fd | fd in s.conns && s.conns[fd].added
      ensures fd in Apply(s, l).conns && Apply(s, l).conns[fd].added
    {
      if l.Thread? {
        ThreadKeepsBase(s, l.t, l.a);
      } else {
        ConnStep(s, l, fd);
      }
    }
  }

  /**
   Where `add` comes before the first wait for a descriptor, as in the client, which starts the epoll thread of a
   connection last, no toggle races, and the whole invariant holds in every state of every run.
   */
  lemma NeverRaces(ss: seq<State>, ls: seq<Label>, i: nat)
    requires IsRun(ss, ls) && AddFirst(ss, ls) && i <= |ls|
    ensures !ss[i].raced && Inv(ss[i]) && Exclusive(ss[i])
  {
    BatchesAdded(ss, ls, i);
    RunKeeps(ss, ls, i);
    ExclusiveUnlessRaced(ss[i]);
  }

  /**
   The toggle is meant to turn the bit off. It does so, leaving the other bit alone, exactly when the descriptor was
   added before its event is handled; otherwise it turns the bit on.
   */
  lemma ToggleClears(s: State, e: Eid, b: Bit)
    requires Inv(s) && Enabled(s, Toggle(e, b))
    ensures var fd := Head(s, e).fd;
            var before, after := s.conns[fd].mask, Apply(s, Toggle(e, b)).conns[fd].mask;
            && (before.Has(b) <==> s.conns[fd].added)
            && (!after.Has(b) <==> s.conns[fd].added)
            && forall o: Bit :: o != b ==> (after.Has(o) <==> before.Has(o))
  {
    ToggledIsSet(s, e, b);
  }

  /** While nobody is inside e_mutex, sfd_events and the kernel agree on every open descriptor. */
  lemma KernelAgrees(s: State, fd: Fd)
    requires Inv(s) && s.lock == Free && fd in s.conns && s.conns[fd].added && !s.conns[fd].hup
    ensures s.conns[fd].kernel == s.conns[fd].mask
  {
    assert MaskOk(s, fd);
  }

  datatype Who = ArmedMask | EpollThread | ReadTask(t: Tid) | NobodyAgain

  /** Who may put the next read task of the descriptor on its way. */
  ghost function ReadToken(s: State, fd: Fd): set<Who>
    requires fd in s.conns
  {
    (if s.conns[fd].mask.inb then {ArmedMask} else {})
    + (if InCallback(s, fd, In) then {EpollThread} else {})
    + (set t | t in s.threads && ReaderOf(s, t, fd) :: ReadTask(t))
    + (if !s.conns[fd].rd.valid then {NobodyAgain} else {})
  }

  ghost predicate Exclusive(s: State) {
    forall fd, x, y :: fd in s.conns && x in ReadToken(s, fd) && y in ReadToken(s, fd) ==> x == y
  }

  lemma TokenIsOne(s: State, fd: Fd) returns (w: Who)
    requires Inv(s) && fd in s.conns && s.conns[fd].added
    ensures ReadToken(s, fd) == {w}
  {
    assert TokenOk(s, fd);
    if s.conns[fd].mask.inb {
      w := ArmedMask;
    } else if InCallback(s, fd, In) {
      w := EpollThread;
    } else if !s.conns[fd].rd.valid {
      w := NobodyAgain;
    } else {
      var t :| ReaderOf(s, t, fd);
      w := ReadTask(t);
    }
  }

  lemma ExclusiveUnlessRaced(s: State)
    requires Inv(s)
    ensures Exclusive(s)
  {
    forall fd, x, y | fd in s.conns && x in ReadToken(s, fd) && y in ReadToken(s, fd)
      ensures x == y
    {
      assert TokenOk(s, fd);
      if s.conns[fd].added {
        var w := TokenIsOne(s, fd);
      }
    }
  }

  lemma RaceBreaksToken(s: State, l: Label)
    requires Inv(s) && !s.raced && Enabled(s, l) && Apply(s, l).raced
    ensures !Exclusive(Apply(s, l))
  {
    assert l.Toggle?;
    ToggledIsSet(s, l.e, l.b);
    var s', fd := Apply(s, l), Head(s, l.e).fd;
    InCallbackStep(s, l, fd, In);
    assert ArmedMask in ReadToken(s', fd) && EpollThread in ReadToken(s', fd);
  }

  lemma {:induction false} RacedForever(ss: seq<State>, ls: seq<Label>, i: nat, j: nat)
    requires IsRun(ss, ls) && i <= j <= |ls| && ss[i].raced
    ensures ss[j].raced
    decreases j
  {
    if i < j {
      RacedForever(ss, ls, i, j - 1);
    }
  }

  /** A run keeps every read token in one place throughout if and only if no toggle raced with `add`. */
  lemma TokenExact(ss: seq<State>, ls: seq<Label>)
    requires IsRun(ss, ls)
    ensures (forall i :: 0 <= i <= |ls| ==> Exclusive(ss[i])) <==> !ss[|ls|].raced
  {
    if ss[|ls|].raced {
      var k := FirstRace(ss, ls, |ls|);
      RunKeeps(ss, ls, k - 1);
      RaceBreaksToken(ss[k - 1], ls[k - 1]);
      assert !Exclusive(ss[k]);
    } else {
      forall i | 0 <= i <= |ls|
        ensures Exclusive(ss[i])
      {
        if ss[i].raced {
          RacedForever(ss, ls, i, |ls|);
        }
        RunKeeps(ss, ls, i);
        ExclusiveUnlessRaced(ss[i]);
      }
    }
  }

  lemma {:induction false} FirstRace(ss: seq<State>, ls: seq<Label>, j: nat) returns (k: nat)
    requires IsRun(ss, ls) && j <= |ls| && ss[j].raced
    ensures 0 < k <= j && ss[k].raced && !ss[k - 1].raced
  {
    if ss[j - 1].raced {
      k := FirstRace(ss, ls, j - 1);
    } else {
      k := j;
    }
  }

  /** Without a race, a read task never finds the read side closed, and two read tasks never overlap. */
  lemma ReadTasksAlone(s: State, t: Tid, u: Tid)
    requires Inv(s) && t in s.threads && s.threads[t].Reader()
    ensures At(s, t) && C(s, t).added && C(s, t).rd.valid && !C(s, t).mask.inb
    ensures u in s.threads && s.threads[u].Reader() && s.threads[u].fd == s.threads[t].fd ==> u == t
  {
    assert ThreadShape(s, t);
    var fd := s.threads[t].fd;
    assert TokenOk(s, fd) && ReaderOf(s, t, fd) && At(s, t);
    assert u in s.threads && s.threads[u].Reader() && s.threads[u].fd == fd ==> ReaderOf(s, u, fd);
  }

  ghost predicate ClosesRead(s: State, l: Label, fd: Fd) {
    l.Thread? && l.a == CloseRead && l.t in s.threads && s.threads[l.t].fd == fd
  }

  lemma NeverReopens(s: State, l: Label, fd: Fd)
    requires Enabled(s, l) && fd in s.conns && !s.conns[fd].rd.valid
    ensures fd in Apply(s, l).conns && !Apply(s, l).conns[fd].rd.valid
  {
    OutboxStep(s, l, fd);
  }

  lemma {:induction false} StaysClosed(ss: seq<State>, ls: seq<Label>, i: nat, j: nat, fd: Fd)
    requires IsRun(ss, ls) && i <= j <= |ls| && fd in ss[i].conns && !ss[i].conns[fd].rd.valid
    ensures fd in ss[j].conns && !ss[j].conns[fd].rd.valid
    decreases j
  {
    if i < j {
      StaysClosed(ss, ls, i, j - 1, fd);
      NeverReopens(ss[j - 1], ls[j - 1], fd);
    }
  }

  /** The read side of a descriptor is closed at most once in any run. */
  lemma ReadClosesOnce(ss: seq<State>, ls: seq<Label>, i: nat, j: nat, fd: Fd)
    requires IsRun(ss, ls) && i <= j < |ls|
    requires ClosesRead(ss[i], ls[i], fd) && ClosesRead(ss[j], ls[j], fd)
    ensures i == j
  {
    RunKeeps(ss, ls, j);
    assert OwnerOk(ss[j], ls[j].t);
    if i < j {
      StaysClosed(ss, ls, i + 1, j, fd);
    }
  }

  // ---------- Output ----------

  ghost predicate SomeStranded(s: State) {
    exists fd :: Stranded(s, fd)
  }

  ghost predicate SomeStrands(s: State, l: Label) {
    exists fd :: Strands(s, l, fd)
  }

  /**
   Some state of a run strands output if and only if in that run the mask of a descriptor is set when its EPOLLOUT is
   armed already, for output that nobody else is about to see to.
   */
  lemma StrandedExactly(ss: seq<State>, ls: seq<Label>)
    requires IsRun(ss, ls)
    ensures (exists i :: 0 <= i <= |ls| && SomeStranded(ss[i]))
            <==> exists k :: 0 <= k < |ls| && SomeStrands(ss[k], ls[k])
  {
    if i :| 0 <= i <= |ls| && SomeStranded(ss[i]) {
      var fd :| Stranded(ss[i], fd);
      var k := FirstStranded(ss, i, fd);
      RunKeeps(ss, ls, k);
      StrandStep(ss[k], ls[k], fd);
      assert SomeStrands(ss[k], ls[k]);
    }
    if k :| 0 <= k < |ls| && SomeStrands(ss[k], ls[k]) {
      var fd :| Strands(ss[k], ls[k], fd);
      RunKeeps(ss, ls, k);
      StrandStep(ss[k], ls[k], fd);
      assert SomeStranded(ss[k + 1]);
    }
  }

  lemma {:induction false} FirstStranded(ss: seq<State>, j: nat, fd: Fd) returns (k: nat)
    requires j < |ss| && ss[0] == INITIAL && Stranded(ss[j], fd)
    ensures k < j && !Stranded(ss[k], fd) && Stranded(ss[k + 1], fd)
  {
    var i := j - 1;
    if Stranded(ss[i], fd) {
      k := FirstStranded(ss, i, fd);
    } else {
      k := i;
    }
  }

  /** Where no toggle has come before the mask is set, no state strands output. */
  lemma OutputNeverStranded(ss: seq<State>, ls: seq<Label>, i: nat, fd: Fd)
    requires IsRun(ss, ls) && i <= |ls| && !ss[i].raced
    ensures !Stranded(ss[i], fd)
  {
    if Stranded(ss[i], fd) {
      var k := FirstStranded(ss, i, fd);
      if ss[k].raced {
        RacedForever(ss, ls, k, i);
      }
      RunKeeps(ss, ls, k);
      StrandStep(ss[k], ls[k], fd);
    }
  }

  // ---------- Output, as the kernel sees it ----------

  /** The kernel watches for a chance to write, or is about to be told to, or someone sees to the output. */
  ghost predicate Served(s: State, fd: Fd)
    requires fd in s.conns
  {
    s.conns[fd].kernel.out || (Inside(s, fd) && s.conns[fd].mask.out) || Tended(s, fd)
  }

  /** A valid writer of an open descriptor holds bytes, and neither the kernel nor anybody else will see to them. */
  ghost predicate Abandoned(s: State, fd: Fd) {
    HasOutput(s, fd) && !s.conns[fd].hup && !Served(s, fd)
  }

  /** The step calls epoll_ctl for the descriptor. */
  ghost predicate Publishes(s: State, l: Label, fd: Fd) {
    || (l.Thread? && l.a == PublishArm && At(s, l.t) && s.threads[l.t].fd == fd)
    || (l.Publish? && EpollOf(s, l.e).batch != [] && Head(s, l.e).fd == fd)
  }

  /** The step tells the kernel of a mask without EPOLLOUT, while there is output that nobody sees to. */
  ghost predicate Abandons(s: State, l: Label, fd: Fd) {
    Publishes(s, l, fd) && HasOutput(s, fd) && !s.conns[fd].hup && !s.conns[fd].mask.out && !Tended(s, fd)
  }

  ghost predicate FitsServe(t: Tid, c: Conn, pc: Pc, r: Local) {
    r.c.wr.valid && r.c.wr.outbox.buffer != [] ==>
      || (r.pc.Some? && r.pc.value.Flusher())
      || (r.pc.Some? && r.pc.value.Holding() && r.c.mask.out && r.lock == ByThread(t))
      || (!pc.Flusher() && c.wr.valid && c.wr.outbox.buffer != [])
  }

  lemma DoServes(t: Tid, c: Conn, pc: Pc, lock: Holder, a: Act)
    requires Can(c, pc, lock, a) && ConnShape(c) && !pc.Holding()
    ensures FitsServe(t, c, pc, Do(t, c, pc, lock, a))
  {
  }

  lemma DoPublishes(t: Tid, c: Conn, pc: Pc, lock: Holder, a: Act)
    requires Can(c, pc, lock, a)
    ensures pc.Holding() <==> a == PublishArm
    ensures pc.Holding() ==> var r := Do(t, c, pc, lock, a).c; r.wr.outbox == c.wr.outbox && r.wr.valid == c.wr.valid
  {
  }

  lemma ThreadAbandons(s: State, t: Tid, a: Act, fd: Fd)
    requires Base(s) && Enabled(s, Thread(t, a)) && !Abandoned(s, fd)
    ensures Abandoned(Apply(s, Thread(t, a)), fd) <==> Abandons(s, Thread(t, a), fd)
  {
    var c, pc := C(s, t), s.threads[t];
    ThreadKeepsBase(s, t, a);
    DoPublishes(t, c, pc, s.lock, a);
    if pc.Holding() {
      PublishAbandons(s, t, Do(t, c, pc, s.lock, a), fd);
    } else {
      assert ThreadShape(s, t);
      DoServes(t, c, pc, s.lock, a);
      MovedServes(s, t, Do(t, c, pc, s.lock, a), fd);
    }
  }

  lemma MovedTended(s: State, t: Tid, r: Local, fd: Fd)
    requires Apt(s, t, r)
    ensures Tended(Moved(s, t, r), fd) <==>
              || InCallback(s, fd, Out) || (exists u :: u != t && FlusherOf(s, u, fd))
              || (fd == s.threads[t].fd && r.pc.Some? && r.pc.value.Flusher())
  {
    var s' := Moved(s, t, r);
    assert InCallback(s', fd, Out) <==> InCallback(s, fd, Out);
    assert forall u :: u != t ==> (FlusherOf(s', u, fd) <==> FlusherOf(s, u, fd));
    assert FlusherOf(s', t, fd) <==> fd == s.threads[t].fd && r.pc.Some? && r.pc.value.Flusher();
  }

  lemma PublishAbandons(s: State, t: Tid, r: Local, fd: Fd)
    requires Apt(s, t, r) && s.threads[t].Holding() && !Abandoned(s, fd)
    requires r.c.wr.outbox == C(s, t).wr.outbox && r.c.wr.valid == C(s, t).wr.valid
    ensures Abandoned(Moved(s, t, r), fd)
            <==> && fd == s.threads[t].fd && HasOutput(s, fd)
                 && !s.conns[fd].hup && !s.conns[fd].mask.out && !Tended(s, fd)
  {
    MovedTended(s, t, r, fd);
    assert FlusherOf(s, t, fd) ==> false;
    assert Tended(s, fd) <==> InCallback(s, fd, Out) || exists u :: u != t && FlusherOf(s, u, fd);
  }

  lemma MovedServes(s: State, t: Tid, r: Local, fd: Fd)
    requires Shape(s) && Apt(s, t, r) && !s.threads[t].Holding() && !Abandoned(s, fd)
    requires FitsServe(t, C(s, t), s.threads[t], r)
    ensures !Abandoned(Moved(s, t, r), fd)
  {
    var s' := Moved(s, t, r);
    if HasOutput(s', fd) && !s'.conns[fd].hup {
      assert ThreadShape(s, t);
      MovedTended(s, t, r, fd);
      if HasOutput(s, fd) && Served(s, fd) {
        assert Tended(s, fd) && !(fd == s.threads[t].fd && s.threads[t].Flusher()) ==> Tended(s', fd);
        assert forall e :: Holds(s', e, fd) <==> Holds(s, e, fd);
      }
    }
  }

  lemma StepAbandons(s: State, l: Label, fd: Fd)
    requires Base(s) && Enabled(s, l) && !l.Thread? && !Abandoned(s, fd) && fd in s.conns
    ensures Abandoned(Apply(s, l), fd) <==> Abandons(s, l, fd)
  {
    ConnStep(s, l, fd);
    if l.Publish? && EpollShape(s, l.e) && Head(s, l.e).fd == fd {
      TendedStays(s, l, fd);
    } else if HasOutput(s, fd) && !s.conns[fd].hup {
      KeepsServed(s, l, fd);
    }
  }

  lemma TendedStays(s: State, l: Label, fd: Fd)
    requires Shape(s) && Enabled(s, l) && l.Publish? && fd in s.conns
    ensures Tended(Apply(s, l), fd) <==> Tended(s, fd)
  {
    InCallbackStep(s, l, fd, Out);
    assert forall t :: FlusherOf(Apply(s, l), t, fd) <==> FlusherOf(s, t, fd);
  }

  lemma KeepsServed(s: State, l: Label, fd: Fd)
    requires Base(s) && Enabled(s, l) && !l.Thread? && fd in s.conns && Served(s, fd)
    requires !(l.Publish? && Head(s, l.e).fd == fd)
    ensures fd in Apply(s, l).conns && (Served(Apply(s, l), fd) || Apply(s, l).conns[fd].hup)
  {
    ConnStep(s, l, fd);
    if Tended(s, fd) {
      KeepsTended(s, l, fd);
    } else {
      KernelStays(s, l, fd);
    }
  }

  lemma KeepsTended(s: State, l: Label, fd: Fd)
    requires Shape(s) && Enabled(s, l) && !l.Thread? && fd in s.conns && Tended(s, fd)
    ensures Tended(Apply(s, l), fd)
  {
    var s' := Apply(s, l);
    InCallbackStep(s, l, fd, Out);
    if t :| FlusherOf(s, t, fd) {
      ThreadsStep(s, l, t);
      assert FlusherOf(s', t, fd);
    } else if l.Spawn? && l.e == s.conns[fd].owner {
      assert FlusherOf(s', l.t, fd);
    }
  }

  lemma KernelStays(s: State, l: Label, fd: Fd)
    requires Shape(s) && Enabled(s, l) && !l.Thread? && fd in s.conns && !(l.Publish? && Head(s, l.e).fd == fd)
    ensures fd in Apply(s, l).conns
    ensures Apply(s, l).conns[fd].hup || Apply(s, l).conns[fd].kernel == s.conns[fd].kernel
    ensures Inside(s, fd) ==> Inside(Apply(s, l), fd) && Apply(s, l).conns[fd].mask == s.conns[fd].mask
  {
    var s' := Apply(s, l);
    assert OfEpoll(l) ==> EpollShape(s, l.e);
    if s.lock.ByEpoll? {
      assert EpollShape(s, s.lock.e);
      if Holds(s, s.lock.e, fd) && !(OfEpoll(l) && l.e == s.lock.e) {
        OtherEpolls(s, l, s.lock.e);
      }
    } else if s.lock.ByThread? {
      ThreadsStep(s, l, s.lock.t);
    }
    if Inside(s, fd) {
      HeldMaskStays(s, l, fd);
    }
  }

  lemma AbandonStep(s: State, l: Label, fd: Fd)
    requires Base(s) && Enabled(s, l) && !Abandoned(s, fd)
    ensures Abandoned(Apply(s, l), fd) <==> Abandons(s, l, fd)
  {
    if l.Thread? {
      ThreadAbandons(s, l.t, l.a, fd);
    } else if fd in s.conns {
      StepAbandons(s, l, fd);
    } else if fd in Apply(s, l).conns {
      NewConn(s, l, fd);
    }
  }

  ghost predicate SomeAbandoned(s: State) {
    exists fd :: Abandoned(s, fd)
  }

  ghost predicate SomeAbandons(s: State, l: Label) {
    exists fd :: Abandons(s, l, fd)
  }

  /**
   Some state of a run has output that neither the kernel nor anybody else will see to, on a descriptor that has not
   hung up, if and only if in that run epoll_ctl is called with a mask without EPOLLOUT while there is output that
   nobody sees to.
   */
  lemma AbandonedExactly(ss: seq<State>, ls: seq<Label>)
    requires IsRun(ss, ls)
    ensures (exists i :: 0 <= i <= |ls| && SomeAbandoned(ss[i]))
            <==> exists k :: 0 <= k < |ls| && SomeAbandons(ss[k], ls[k])
  {
    if i :| 0 <= i <= |ls| && SomeAbandoned(ss[i]) {
      var fd :| Abandoned(ss[i], fd);
      var k := FirstAbandoned(ss, i, fd);
      RunKeeps(ss, ls, k);
      AbandonStep(ss[k], ls[k], fd);
      assert SomeAbandons(ss[k], ls[k]);
    }
    if k :| 0 <= k < |ls| && SomeAbandons(ss[k], ls[k]) {
      var fd :| Abandons(ss[k], ls[k], fd);
      RunKeeps(ss, ls, k);
      if Abandoned(ss[k], fd) {
        assert SomeAbandoned(ss[k]);
      } else {
        AbandonStep(ss[k], ls[k], fd);
        assert SomeAbandoned(ss[k + 1]);
      }
    }
  }

  lemma {:induction false} FirstAbandoned(ss: seq<State>, j: nat, fd: Fd) returns (k: nat)
    requires j < |ss| && ss[0] == INITIAL && Abandoned(ss[j], fd)
    ensures k < j && !Abandoned(ss[k], fd) && Abandoned(ss[k + 1], fd)
  {
    var i := j - 1;
    if Abandoned(ss[i], fd) {
      k := FirstAbandoned(ss, i, fd);
    } else {
      k := i;
    }
  }

  /** Output that is abandoned is stranded as well, so that no state of a run without a race abandons any. */
  lemma AbandonedIsStranded(ss: seq<State>, ls: seq<Label>, i: nat, fd: Fd)
    requires IsRun(ss, ls) && i <= |ls| && Abandoned(ss[i], fd)
    ensures Stranded(ss[i], fd) && ss[i].raced
  {
    RunKeeps(ss, ls, i);
    assert OutKnown(ss[i], fd);
    if !ss[i].raced {
      OutputNeverStranded(ss, ls, i, fd);
    }
  }

  /**
   In every state of every run, what is armed in sfd_events is known to the kernel, unless someone is about to tell it;
   after a hang-up the kernel knows nothing of the descriptor any more, whatever is armed.
   */
  lemma ArmedIsKnown(ss: seq<State>, ls: seq<Label>, i: nat, fd: Fd)
    requires IsRun(ss, ls) && i <= |ls| && fd in ss[i].conns
    ensures ss[i].conns[fd].mask.out && ss[i].lock == Free && !ss[i].conns[fd].hup ==> ss[i].conns[fd].kernel.out
    ensures ss[i].conns[fd].hup ==> ss[i].conns[fd].kernel == NOTHING
  {
    RunKeeps(ss, ls, i);
    assert OutKnown(ss[i], fd);
  }

  /**
   When no thread is at work and no event is waiting to be handled, the kernel watches every open descriptor for all
   that is still to be done: for input while the read side is open, for output while the buffer is not empty.
   */
  lemma QuietIsWatched(ss: seq<State>, ls: seq<Label>, i: nat, fd: Fd)
    requires IsRun(ss, ls) && i <= |ls| && !ss[i].raced
    requires ss[i].threads == map[] && forall e :: EpollOf(ss[i], e) == IDLE
    requires fd in ss[i].conns && ss[i].conns[fd].added && !ss[i].conns[fd].hup
    ensures var c := ss[i].conns[fd];
            && (c.kernel.inb <==> c.rd.valid)
            && (c.wr.valid && c.wr.outbox.buffer != [] ==> c.kernel.out)
  {
    var s := ss[i];
    RunKeeps(ss, ls, i);
    assert s.lock.ByEpoll? ==> EpollShape(s, s.lock.e);
    KernelAgrees(s, fd);
    assert TokenOk(s, fd);
    OutputNeverStranded(ss, ls, i, fd);
  }

  // ---------- The byte streams ----------

  ghost predicate ShortWrite(s: State, l: Label, fd: Fd) {
    && l.Thread? && l.a.WriteSome? && l.t in s.threads && s.threads[l.t].fd == fd && fd in s.conns
    && l.a.n != Slice(s.conns[fd].wr.outbox)
  }

  /** The bytes a connection has sent and holds are its frames, whole and in order, unless a write came up short. */
  lemma IntactUnlessShort(ss: seq<State>, ls: seq<Label>, i: nat, fd: Fd)
    requires IsRun(ss, ls) && i <= |ls| && fd in ss[i].conns
    ensures var o := ss[i].conns[fd].wr.outbox;
            && (o.lost == 0 <==> forall k :: 0 <= k < i ==> !ShortWrite(ss[k], ls[k], fd))
            && AllSized(o.sent)
            && (o.accepted + o.buffer == Stream(o.sent) <==> forall k :: 0 <= k < i ==> !ShortWrite(ss[k], ls[k], fd))
  {
    LostExact(ss, ls, i, fd);
    RunKeeps(ss, ls, i);
  }

  lemma {:induction false} LostExact(ss: seq<State>, ls: seq<Label>, i: nat, fd: Fd)
    requires IsRun(ss, ls) && i <= |ls|
    ensures fd in ss[i].conns ==>
              (ss[i].conns[fd].wr.outbox.lost == 0 <==> forall k :: 0 <= k < i ==> !ShortWrite(ss[k], ls[k], fd))
    ensures fd !in ss[i].conns ==> forall k :: 0 <= k < i ==> !ShortWrite(ss[k], ls[k], fd)
  {
    if i > 0 {
      var j := i - 1;
      LostExact(ss, ls, j, fd);
      OutboxStep(ss[j], ls[j], fd);
    }
  }

  /** How one step changes what a connection has taken, lost and read. */
  lemma OutboxStep(s: State, l: Label, fd: Fd)
    requires Enabled(s, l)
    ensures var s' := Apply(s, l);
            && (fd in s.conns ==> fd in s'.conns)
            && (fd in s'.conns && fd !in s.conns ==> l.Register? && s'.conns[fd] == Accepted(l.e, l.onDemand))
            && (fd in s.conns ==> Progress(s.conns[fd], s'.conns[fd], ShortWrite(s, l, fd),
                  if l.Thread? && l.a.Receive? && s.threads[l.t].fd == fd then l.a.chunk else []))
  {
    if l.Thread? {
      DoProgress(l.t, C(s, l.t), s.threads[l.t], s.lock, l.a);
    }
  }

  ghost predicate Progress(c: Conn, c': Conn, short: bool, chunk: seq<Byte>) {
    && IsPrefix(c.wr.outbox.accepted, c'.wr.outbox.accepted)
    && (c'.wr.outbox.lost == 0 <==> c.wr.outbox.lost == 0 && !short)
    && c'.rd.inbox.received == c.rd.inbox.received + chunk
    && (!c.rd.valid ==> !c'.rd.valid)
  }

  lemma DoProgress(t: Tid, c: Conn, pc: Pc, lock: Holder, a: Act)
    requires Can(c, pc, lock, a)
    ensures Progress(c, Do(t, c, pc, lock, a).c, a.WriteSome? && a.n != Slice(c.wr.outbox),
                     if a.Receive? then a.chunk else [])
  {
  }
}
