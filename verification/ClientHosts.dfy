/**
 What becomes of the client's hosts: connecting, marking a descriptor for death, reaping and reconnecting, and
 retrying, as steps of the main thread, of any number of marking threads, of the reaper and of the retry thread.

 A connection is made in two steps: the descriptor enters `conns` and its epoll thread starts, and only then is the
 host's status recorded; other threads may come in between. The times at which the reaper and the retry thread run are
 left open, and so is which connection attempts succeed. No thread is late: a descriptor is not reaped while a thread
 has yet to mark it or to record the connection.
 */
module ClientHosts {
  import opened Bytes
  import opened Hosts
  import opened Erasure

  type Tid = int

  /** The threads that make connections. */
  datatype Who = Starter | Reaper | Retrier

  /** A connection whose host has no status yet. */
  datatype Making = Making(h: Host, fd: Fd)

  datatype Todo = Nothing | Reconnect(h: Host) | Push(h: Host)

  /** A pass of the reaper, which holds z_mutex: the descriptors it has closed, and what it has to do about the last. */
  datatype Pass = Pass(zv: set<Fd>, todo: Todo)

  /** A pass of the retry thread, which holds eh_mutex: the position it has come to, and those it has reconnected. */
  datatype Attempt = Attempt(i: nat, sci: seq<nat>)

  /** The connections, and what is known of them. */
  datatype Net = Net(
    making: map<Who, Making>,
    inUse: set<Fd>,             // the descriptors that the system has not been told to close
    conns: map<Fd, Host>,
    status: map<Host, Status>,
    markers: map<Tid, Fd>,      // threads that have cleared the health of a host and not yet marked its descriptor
    zm: set<Fd>,
    revived: set<Fd>)           // connections whose host was recorded as healthy after its health was cleared

  /** What is still to be tried. */
  datatype Agenda = Agenda(
    desired: seq<Host>,
    next: nat,                  // how many of the desired hosts the main thread has tried
    main: Option<Host>,         // a host the main thread still has to put on the list
    retry: seq<Host>,
    attempt: Option<Attempt>)

  datatype State = State(
    net: Net,
    lists: Agenda,
    pass: Option<Pass>,
    multi: bool,                // some retry pass has reconnected more than one host
    reused: bool,               // the number of a connection that was closed but not reaped was given to another
    undefined: bool)            // some erasure was out of range

  datatype Label =
    | Connect(r: Option<Fd>)             // connect_to_hosts: the next host
    | PushMain
    | Record(w: Who)                     // make_connection: the status of a host that was connected
    | MarkHealth(t: Tid, fd: Fd)         // a_zombied: the host is no longer healthy
    | MarkZombie(t: Tid)                 // a_zombied: the descriptor is marked
    | HangUp(fd: Fd)                     // the epoll thread closes a descriptor it has marked
    | ReapBegin
    | Close(fd: Fd)
    | Reopen(r: Option<Fd>)
    | ReapPush
    | ReapEnd
    | RetryBegin
    | Retry(r: Option<Fd>)
    | RetryEnd

  ghost predicate Marked(s: State, fd: Fd) {
    exists t :: MarkedBy(s, t, fd)
  }

  ghost predicate MarkedBy(s: State, t: Tid, fd: Fd) {
    t in s.net.markers && s.net.markers[t] == fd
  }

  predicate InMaking(s: State, fd: Fd) {
    exists w :: w in s.net.making && s.net.making[w].fd == fd
  }

  // The system gives out no number that is in use.
  predicate Fresh(s: State, r: Option<Fd>) {
    r.Some? ==> r.value !in s.net.inUse
  }

  predicate Gone(s: State, fd: Fd) {
    s.pass.Some? && fd in s.pass.value.zv
  }

  /** The host that a thread is about to connect. */
  function Target(s: State, w: Who): Option<Host> {
    var a := s.lists;
    match w
    case Starter => if a.next < |a.desired| && a.main == None then Some(a.desired[a.next]) else None
    case Reaper => if s.pass.Some? && s.pass.value.todo.Reconnect? then Some(s.pass.value.todo.h) else None
    case Retrier =>
      if a.attempt.Some? && a.attempt.value.i < |a.retry| then Some(a.retry[a.attempt.value.i]) else None
  }

  predicate CanTry(s: State, w: Who, r: Option<Fd>) {
    Target(s, w).Some? && w !in s.net.making && Fresh(s, r)
  }

  ghost predicate Enabled(s: State, l: Label) {
    match l
    case Connect(r) => CanTry(s, Starter, r)
    case PushMain => s.lists.main.Some? && s.lists.attempt == None
    case Record(w) => w in s.net.making
    case MarkHealth(t, fd) => t !in s.net.markers && fd in s.net.conns
    case MarkZombie(t) => t in s.net.markers && s.pass == None
    case HangUp(fd) => fd in s.net.inUse && fd in s.net.zm && !Gone(s, fd)
    case ReapBegin => s.pass == None
    case Close(fd) =>
      && s.pass.Some? && s.pass.value.todo == Nothing && Reaper !in s.net.making
      && fd in s.net.zm && fd !in s.pass.value.zv && fd in s.net.conns && !Marked(s, fd) && !InMaking(s, fd)
    case Reopen(r) => CanTry(s, Reaper, r)
    case ReapPush => s.pass.Some? && s.pass.value.todo.Push? && s.lists.attempt == None
    case ReapEnd => s.pass.Some? && s.pass.value.todo == Nothing && Reaper !in s.net.making
    case RetryBegin => s.lists.attempt == None
    case Retry(r) => CanTry(s, Retrier, r)
    case RetryEnd => s.lists.attempt.Some? && s.lists.attempt.value.i == |s.lists.retry| && Retrier !in s.net.making
  }

  /** make_connection, up to the status of a host that was connected */
  function Tried(n: Net, w: Who, h: Host, r: Option<Fd>): Net {
    match r
    case Some(fd) =>
      n.(making := n.making[w := Making(h, fd)], inUse := n.inUse + {fd}, conns := n.conns[fd := h])
    case None => n.(status := n.status[h := Status(false, -1)])
  }

  // What `h_status[h]` yields, also for a host without an entry.
  function StatusOf(s: State, h: Host): Status {
    if h in s.net.status then s.net.status[h] else Status(false, 0)
  }

  predicate Tries(l: Label) {
    l.Connect? || l.Reopen? || l.Retry?
  }

  function Trier(l: Label): Who
    requires Tries(l)
  {
    if l.Connect? then Starter else if l.Reopen? then Reaper else Retrier
  }

  predicate Lists(l: Label) {
    l.PushMain? || l.ReapPush? || l.RetryBegin? || l.RetryEnd?
  }

  function Attempted(s: State, l: Label): State
    requires Tries(l) && CanTry(s, Trier(l), l.r)
  {
    var tried := s.(net := Tried(s.net, Trier(l), Target(s, Trier(l)).value, l.r),
                    reused := s.reused || (l.r.Some? && l.r.value in s.net.conns));
    match l
    case Connect(r) =>
      var a := s.lists;
      tried.(lists := a.(next := a.next + 1, main := if r.Some? then None else Some(a.desired[a.next])))
    case Reopen(r) =>
      tried.(pass := Some(Pass(s.pass.value.zv, if r.Some? then Nothing else Push(s.pass.value.todo.h))))
    case Retry(r) =>
      var a := s.lists.attempt.value;
      tried.(lists := s.lists.(attempt := Some(Attempt(a.i + 1, if r.Some? then a.sci + [a.i] else a.sci))))
  }

  ghost function Relisted(s: State, l: Label): State
    requires Lists(l) && Enabled(s, l)
  {
    var a := s.lists;
    match l
    case PushMain => s.(lists := a.(retry := a.retry + [a.main.value], main := None))
    case ReapPush =>
      s.(lists := a.(retry := a.retry + [s.pass.value.todo.h]), pass := Some(Pass(s.pass.value.zv, Nothing)))
    case RetryBegin => s.(lists := a.(attempt := Some(Attempt(0, []))))
    case RetryEnd =>
      var sci := a.attempt.value.sci;
      var left := EraseEach(a.retry, sci);
      s.(lists := a.(retry := if left.Some? then left.value else a.retry, attempt := None),
         multi := s.multi || |sci| > 1, undefined := s.undefined || left == None)
  }

  ghost function Changed(s: State, l: Label): State
    requires !Tries(l) && !Lists(l) && Enabled(s, l)
  {
    var n := s.net;
    match l
    case Record(w) =>
      var m := n.making[w];
      s.(net := n.(status := n.status[m.h := Status(true, m.fd)], making := n.making - {w},
                   revived := if Doomed(s, m.fd) then n.revived + {m.fd} else n.revived))
    case MarkHealth(t, fd) =>
      var h := n.conns[fd];
      s.(net := n.(status := n.status[h := StatusOf(s, h).(healthy := false)], markers := n.markers[t := fd],
                   revived := n.revived - {fd}))
    case MarkZombie(t) => s.(net := n.(zm := n.zm + {n.markers[t]}, markers := n.markers - {t}))
    case HangUp(fd) => s.(net := n.(inUse := n.inUse - {fd}))
    case ReapBegin => s.(pass := Some(Pass({}, Nothing)))
    case Close(fd) =>
      s.(net := n.(conns := n.conns - {fd}, inUse := n.inUse - {fd}, revived := n.revived - {fd}),
         pass := Some(Pass(s.pass.value.zv + {fd}, Reconnect(n.conns[fd]))))
    case ReapEnd => s.(net := n.(zm := n.zm - s.pass.value.zv), pass := None)
  }

  ghost function Apply(s: State, l: Label): State
    requires Enabled(s, l)
  {
    if Tries(l) then Attempted(s, l) else if Lists(l) then Relisted(s, l) else Changed(s, l)
  }

  // ---------- Where a host is ----------

  ghost predicate Processed(s: State, h: Host) {
    exists k :: 0 <= k < s.lists.next <= |s.lists.desired| && s.lists.desired[k] == h
  }

  ghost predicate ConnectedBy(s: State, h: Host, fd: Fd) {
    fd in s.net.conns && s.net.conns[fd] == h
  }

  ghost predicate Connected(s: State, h: Host) {
    exists fd :: ConnectedBy(s, h, fd)
  }

  ghost predicate ListedAt(s: State, h: Host, k: int) {
    0 <= k < |s.lists.retry| && s.lists.retry[k] == h && !(s.lists.attempt.Some? && k in s.lists.attempt.value.sci)
  }

  /** On the retry list, at a position the retry pass does not mean to remove. */
  ghost predicate Listed(s: State, h: Host) {
    exists k :: ListedAt(s, h, k)
  }

  ghost predicate InHand(s: State, h: Host) {
    s.pass.Some? && s.pass.value.todo != Nothing && s.pass.value.todo.h == h
  }

  /** The main thread or the reaper is about to connect it or to put it on the list. */
  ghost predicate Transit(s: State, h: Host) {
    s.lists.main == Some(h) || InHand(s, h)
  }

  /** Marked, or about to be marked, and not yet reaped. */
  ghost predicate Doomed(s: State, fd: Fd) {
    (fd in s.net.zm && !Gone(s, fd)) || Marked(s, fd)
  }

  predicate ExactlyOne(a: bool, b: bool, c: bool) {
    (a || b || c) && !(a && b) && !(a && c) && !(b && c)
  }

  ghost predicate Placed(s: State, h: Host) {
    if Processed(s, h) then ExactlyOne(Connected(s, h), Listed(s, h), Transit(s, h))
    else !Connected(s, h) && h !in s.lists.retry && !Transit(s, h)
  }

  /** Every host tried so far has a place, and only one. */
  ghost predicate Accounted(s: State) {
    !s.undefined && forall h :: Placed(s, h)
  }

  predicate Sound(s: State) {
    !s.multi && !s.reused
  }

  /**
   One descriptor for a host. Once recorded, a host is healthy exactly while its descriptor is neither marked nor about
   to be, or if it was recorded too late.
   */
  ghost predicate ConnTables(s: State) {
    && (forall a, b :: a in s.net.conns && b in s.net.conns && s.net.conns[a] == s.net.conns[b] ==> a == b)
    && (forall w :: w in s.net.making ==> ConnectedBy(s, s.net.making[w].h, s.net.making[w].fd))
    && (forall v, w :: v in s.net.making && w in s.net.making && s.net.making[v].fd == s.net.making[w].fd ==> v == w)
    && (forall fd :: fd in s.net.conns && !InMaking(s, fd) ==>
          && s.net.conns[fd] in s.net.status
          && s.net.status[s.net.conns[fd]] == Status(!Doomed(s, fd) || fd in s.net.revived, fd))
    && (forall fd :: fd in s.net.revived ==> Doomed(s, fd) && !InMaking(s, fd))
    && MarksConnected(s)
  }

  ghost predicate MarksConnected(s: State) {
    forall fd :: Doomed(s, fd) ==> fd in s.net.conns
  }

  ghost predicate ListTables(s: State) {
    var a := s.lists;
    && Distinct(a.desired) && a.next <= |a.desired| && Distinct(a.retry)
    && (a.main.Some? ==> !InHand(s, a.main.value))
    && (a.attempt.Some? ==> a.attempt.value.i <= |a.retry| && Increasing(a.attempt.value.sci, a.attempt.value.i))
  }

  /** On the retry list, or about to be put on it. */
  ghost predicate Down(s: State, h: Host) {
    Listed(s, h) || s.lists.main == Some(h) || (s.pass.Some? && s.pass.value.todo == Push(h))
  }

  /** Hosts that are down are recorded as unhealthy. */
  ghost predicate DownTables(s: State) {
    forall h :: Down(s, h) ==> h in s.net.status && !s.net.status[h].healthy
  }

  ghost predicate Inv(s: State) {
    ConnTables(s) && ListTables(s) && Accounted(s) && DownTables(s)
  }

  // ---------- What every step keeps ----------

  lemma TriedConn(s: State, w: Who, h: Host, r: Option<Fd>)
    requires ConnTables(s) && !Connected(s, h) && w !in s.net.making && (r.Some? ==> r.value !in s.net.conns)
    ensures ConnTables(s.(net := Tried(s.net, w, h, r)))
  {
    if r.Some? {
      OpenedConn(s, w, h, r.value);
    } else {
      var s' := s.(net := Tried(s.net, w, h, r));
      SameMarks(s, s');
      assert forall fd :: fd in s.net.conns ==> ConnectedBy(s, s.net.conns[fd], fd);
      assert forall fd :: Doomed(s', fd) <==> Doomed(s, fd);
      assert forall fd :: InMaking(s', fd) <==> InMaking(s, fd);
    }
  }

  lemma OpenedConn(s: State, w: Who, h: Host, fd: Fd)
    requires ConnTables(s) && !Connected(s, h) && w !in s.net.making && fd !in s.net.conns
    ensures ConnTables(s.(net := Tried(s.net, w, h, Some(fd))))
  {
    var s' := s.(net := Tried(s.net, w, h, Some(fd)));
    SameMarks(s, s');
    OpenedMaking(s, w, h, fd);
    OpenedApart(s, w, h, fd);
    forall k | k in s'.net.conns && !InMaking(s', k)
      ensures s'.net.conns[k] in s'.net.status
      ensures s'.net.status[s'.net.conns[k]] == Status(!Doomed(s', k) || k in s'.net.revived, k)
    {
      assert k in s.net.conns && !InMaking(s, k) && (Doomed(s', k) <==> Doomed(s, k));
    }
  }

  lemma OpenedApart(s: State, w: Who, h: Host, fd: Fd)
    requires ConnTables(s) && !Connected(s, h) && w !in s.net.making && fd !in s.net.conns
    ensures var n := Tried(s.net, w, h, Some(fd));
            && (forall a, b :: a in n.conns && b in n.conns && n.conns[a] == n.conns[b] ==> a == b)
            && (forall v, u :: v in n.making && u in n.making && n.making[v].fd == n.making[u].fd ==> v == u)
  {
    assert forall k :: k in s.net.conns ==> ConnectedBy(s, s.net.conns[k], k);
  }

  lemma OpenedMaking(s: State, w: Who, h: Host, fd: Fd)
    requires w !in s.net.making
    ensures var s' := s.(net := Tried(s.net, w, h, Some(fd)));
            forall k :: InMaking(s', k) <==> InMaking(s, k) || k == fd
  {
    var s' := s.(net := Tried(s.net, w, h, Some(fd)));
    forall k
      ensures InMaking(s', k) <==> InMaking(s, k) || k == fd
    {
      if v :| v in s.net.making && s.net.making[v].fd == k {
        assert s'.net.making[v].fd == k;
      }
      assert s'.net.making[w].fd == fd;
    }
  }

  lemma ClosedConn(s: State, fd: Fd)
    requires ConnTables(s) && Enabled(s, Close(fd))
    ensures ConnTables(Apply(s, Close(fd))) && !Connected(Apply(s, Close(fd)), s.net.conns[fd])
  {
    var s' := Apply(s, Close(fd));
    assert forall t, k :: MarkedBy(s', t, k) <==> MarkedBy(s, t, k);
    assert forall k :: Doomed(s', k) <==> Doomed(s, k) && k != fd;
    assert forall k :: InMaking(s', k) <==> InMaking(s, k);
    assert forall k :: !ConnectedBy(s', s.net.conns[fd], k);
  }

  lemma RecordedConn(s: State, w: Who)
    requires ConnTables(s) && Enabled(s, Record(w))
    ensures ConnTables(Apply(s, Record(w)))
  {
    var s', m := Apply(s, Record(w)), s.net.making[w];
    assert forall t, k :: MarkedBy(s', t, k) <==> MarkedBy(s, t, k);
    assert forall k :: Doomed(s', k) <==> Doomed(s, k);
    forall k
      ensures InMaking(s', k) <==> InMaking(s, k) && k != m.fd
    {
      if v :| v in s.net.making && s.net.making[v].fd == k && k != m.fd {
        assert v in s'.net.making && s'.net.making[v].fd == k;
      }
    }
  }

  lemma ClearedConn(s: State, t: Tid, fd: Fd)
    requires ConnTables(s) && Enabled(s, MarkHealth(t, fd))
    ensures ConnTables(Apply(s, MarkHealth(t, fd)))
  {
    var s' := Apply(s, MarkHealth(t, fd));
    assert forall k :: InMaking(s', k) <==> InMaking(s, k);
    assert MarkedBy(s', t, fd);
    assert forall u, k :: u != t ==> (MarkedBy(s', u, k) <==> MarkedBy(s, u, k));
    assert forall k :: k != fd ==> (Doomed(s', k) <==> Doomed(s, k));
  }

  lemma MarkedConn(s: State, t: Tid)
    requires ConnTables(s) && Enabled(s, MarkZombie(t))
    ensures ConnTables(Apply(s, MarkZombie(t)))
  {
    var s' := Apply(s, MarkZombie(t));
    assert forall k :: InMaking(s', k) <==> InMaking(s, k);
    assert MarkedBy(s, t, s.net.markers[t]);
    assert forall u, k :: MarkedBy(s', u, k) <==> u != t && MarkedBy(s, u, k);
    assert forall k :: Doomed(s', k) <==> Doomed(s, k);
  }

  lemma SameConn(s: State, s': State)
    requires ConnTables(s) && s'.net == s.net.(inUse := s'.net.inUse, zm := s'.net.zm)
    requires forall fd :: fd in s.net.zm && !Gone(s, fd) <==> fd in s'.net.zm && !Gone(s', fd)
    ensures ConnTables(s')
  {
    SameMarks(s, s');
    assert forall fd :: Doomed(s', fd) <==> Doomed(s, fd);
    assert forall fd :: InMaking(s', fd) <==> InMaking(s, fd);
  }

  /** Whoever is about to be connected is not connected yet. */
  lemma TargetApart(s: State, l: Label)
    requires Inv(s) && Enabled(s, l) && Tries(l)
    ensures var h := Target(s, Trier(l)).value;
            && !Connected(s, h)
            && (l.Connect? ==> !Processed(s, h) && h !in s.lists.retry && !Transit(s, h))
            && (l.Reopen? ==> Processed(s, h) && !Listed(s, h))
            && (l.Retry? ==> Processed(s, h) && Listed(s, h) && !Transit(s, h))
  {
    var h := Target(s, Trier(l)).value;
    assert Placed(s, h);
    if l.Retry? {
      assert ListedAt(s, h, s.lists.attempt.value.i);
    }
  }

  lemma KeepsConn(s: State, l: Label)
    requires Inv(s) && Enabled(s, l) && Sound(Apply(s, l))
    ensures ConnTables(Apply(s, l))
  {
    if Tries(l) {
      TargetApart(s, l);
      var tried := s.(net := Tried(s.net, Trier(l), Target(s, Trier(l)).value, l.r));
      TriedConn(s, Trier(l), Target(s, Trier(l)).value, l.r);
      SameConn(tried, Apply(s, l));
    } else if l.Close? {
      ClosedConn(s, l.fd);
    } else if l.Record? {
      RecordedConn(s, l.w);
    } else if l.MarkHealth? {
      ClearedConn(s, l.t, l.fd);
    } else if l.MarkZombie? {
      MarkedConn(s, l.t);
    } else {
      SameConn(s, Apply(s, l));
    }
  }

  lemma ProcessedStep(s: State, l: Label, g: Host)
    requires Enabled(s, l)
    ensures Processed(Apply(s, l), g) <==> Processed(s, g) || (l.Connect? && g == s.lists.desired[s.lists.next])
  {
    var s' := Apply(s, l);
    if k :| 0 <= k < s.lists.next <= |s.lists.desired| && s.lists.desired[k] == g {
      assert s'.lists.desired[k] == g;
    }
    if l.Connect? && g == s.lists.desired[s.lists.next] {
      assert s'.lists.desired[s.lists.next] == g;
    }
  }

  lemma ConnectedStep(s: State, l: Label, g: Host)
    requires ConnTables(s) && Enabled(s, l) && Sound(Apply(s, l))
    ensures Connected(Apply(s, l), g) <==>
              if Tries(l) then Connected(s, g) || (l.r.Some? && Target(s, Trier(l)) == Some(g))
              else Connected(s, g) && !(l.Close? && g == s.net.conns[l.fd])
  {
    var s' := Apply(s, l);
    if Tries(l) && l.r.Some? {
      assert forall fd :: fd != l.r.value ==> (ConnectedBy(s', g, fd) <==> ConnectedBy(s, g, fd));
      assert ConnectedBy(s', g, l.r.value) <==> s'.net.conns[l.r.value] == g;
    } else {
      assert forall fd :: ConnectedBy(s', g, fd) <==> ConnectedBy(s, g, fd) && !(l.Close? && fd == l.fd);
    }
    if l.Close? {
      assert ConnectedBy(s, s.net.conns[l.fd], l.fd);
    }
  }

  lemma ListedStep(s: State, l: Label, g: Host)
    requires ListTables(s) && Enabled(s, l) && Sound(Apply(s, l))
    ensures Listed(Apply(s, l), g) <==>
              match l
              case PushMain => Listed(s, g) || g == s.lists.main.value
              case ReapPush => Listed(s, g) || g == s.pass.value.todo.h
              case Retry(r) => Listed(s, g) && !(r.Some? && g == s.lists.retry[s.lists.attempt.value.i])
              case _ => Listed(s, g)
    ensures g in Apply(s, l).lists.retry ==> g in s.lists.retry || Transit(s, g)
  {
    var s' := Apply(s, l);
    if l.PushMain? || l.ReapPush? {
      var n := |s.lists.retry|;
      assert forall k :: k != n ==> (ListedAt(s', g, k) <==> ListedAt(s, g, k));
      assert ListedAt(s', g, n) <==> s'.lists.retry[n] == g;
    } else if l.RetryEnd? {
      EndStep(s, g);
    } else if l.Retry? {
      var i := s.lists.attempt.value.i;
      assert forall k :: k != i ==> (ListedAt(s', g, k) <==> ListedAt(s, g, k));
      assert ListedAt(s, g, i) <==> g == s.lists.retry[i];
      assert ListedAt(s', g, i) <==> g == s.lists.retry[i] && !l.r.Some?;
    } else {
      assert forall k :: ListedAt(s', g, k) <==> ListedAt(s, g, k);
    }
  }

  lemma EndStep(s: State, g: Host)
    requires ListTables(s) && Enabled(s, RetryEnd) && Sound(Apply(s, RetryEnd))
    ensures Apply(s, RetryEnd).lists.retry == Without(s.lists.retry, s.lists.attempt.value.sci)
    ensures Apply(s, RetryEnd).undefined == s.undefined
    ensures Listed(Apply(s, RetryEnd), g) <==> Listed(s, g)
    ensures Distinct(Apply(s, RetryEnd).lists.retry)
    ensures g in Apply(s, RetryEnd).lists.retry ==> g in s.lists.retry
  {
    var s', sci := Apply(s, RetryEnd), s.lists.attempt.value.sci;
    ErasureExact(s.lists.retry, sci);
    WithoutIs(s.lists.retry, sci);
    WithoutDistinct(s.lists.retry, sci);
    assert g in s'.lists.retry <==> exists k :: ListedAt(s', g, k) by {
      if g in s'.lists.retry {
        var k :| 0 <= k < |s'.lists.retry| && s'.lists.retry[k] == g;
        assert ListedAt(s', g, k);
      }
    }
    assert g in s'.lists.retry <==> exists k :: ListedAt(s, g, k) by {
      assert forall k :: ListedAt(s, g, k) <==> 0 <= k < |s.lists.retry| && s.lists.retry[k] == g && k !in sci;
    }
  }

  lemma KeepsAccounted(s: State, l: Label)
    requires Inv(s) && Enabled(s, l) && Sound(Apply(s, l))
    ensures Accounted(Apply(s, l))
  {
    if l.RetryEnd? {
      EndStep(s, 0);
    }
    forall g
      ensures Placed(Apply(s, l), g)
    {
      KeepsPlaced(s, l, g);
    }
  }

  lemma KeepsPlaced(s: State, l: Label, g: Host)
    requires Inv(s) && Enabled(s, l) && Sound(Apply(s, l))
    ensures Placed(Apply(s, l), g)
  {
    assert Placed(s, g);
    ProcessedStep(s, l, g);
    ConnectedStep(s, l, g);
    ListedStep(s, l, g);
    if Tries(l) {
      TargetApart(s, l);
    } else if l.Close? {
      assert ConnectedBy(s, s.net.conns[l.fd], l.fd);
    }
    if Listed(s, g) {
      var k :| ListedAt(s, g, k);
      assert g in s.lists.retry;
    }
  }

  lemma KeepsLists(s: State, l: Label)
    requires Inv(s) && Enabled(s, l) && Sound(Apply(s, l))
    ensures ListTables(Apply(s, l))
  {
    if l.RetryEnd? {
      EndStep(s, 0);
    } else if l.PushMain? || l.ReapPush? {
      PushKeepsLists(s, l);
    } else if l.Connect? || l.Close? {
      TurnKeepsLists(s, l);
    } else if l.Retry? {
      RetryKeepsLists(s, l.r);
    }
  }

  lemma PushKeepsLists(s: State, l: Label)
    requires Inv(s) && Enabled(s, l) && (l.PushMain? || l.ReapPush?)
    ensures ListTables(Apply(s, l))
  {
    PushedApart(s, if l.PushMain? then s.lists.main.value else s.pass.value.todo.h);
  }

  lemma TurnKeepsLists(s: State, l: Label)
    requires Inv(s) && Enabled(s, l) && (l.Connect? || l.Close?)
    ensures ListTables(Apply(s, l))
  {
    if l.Connect? {
      TargetApart(s, l);
    } else {
      assert ConnectedBy(s, s.net.conns[l.fd], l.fd);
      assert Placed(s, s.net.conns[l.fd]);
    }
  }

  lemma RetryKeepsLists(s: State, r: Option<Fd>)
    requires ListTables(s) && Enabled(s, Retry(r))
    ensures ListTables(Apply(s, Retry(r)))
  {
    var s', a := Apply(s, Retry(r)), s.lists.attempt.value;
    assert s'.lists.retry == s.lists.retry && s'.lists.main == s.lists.main && s'.pass == s.pass;
    assert Increasing(a.sci, a.i + 1) && Increasing(a.sci + [a.i], a.i + 1);
  }

  lemma PushedApart(s: State, h: Host)
    requires Inv(s) && Transit(s, h) && s.lists.attempt == None
    ensures h !in s.lists.retry
  {
    assert Placed(s, h);
    assert forall k :: 0 <= k < |s.lists.retry| ==> ListedAt(s, s.lists.retry[k], k);
  }

  /** Every step keeps the invariant, but one that reconnects several hosts in a pass or reuses a number too early. */
  lemma StepKeeps(s: State, l: Label)
    requires Inv(s) && Enabled(s, l) && Sound(Apply(s, l))
    ensures Inv(Apply(s, l))
  {
    KeepsConn(s, l);
    KeepsLists(s, l);
    KeepsAccounted(s, l);
    KeepsDown(s, l);
  }

  lemma KeepsDown(s: State, l: Label)
    requires Inv(s) && Enabled(s, l) && Sound(Apply(s, l))
    ensures DownTables(Apply(s, l))
  {
    forall h | Down(Apply(s, l), h)
      ensures h in Apply(s, l).net.status && !Apply(s, l).net.status[h].healthy
    {
      ListedStep(s, l, h);
      StatusStep(s, l, h);
      if l.Record? {
        assert ConnectedBy(s, s.net.making[l.w].h, s.net.making[l.w].fd) && Placed(s, s.net.making[l.w].h);
      }
    }
  }

  /** A step makes a host healthy only by recording its connection; a failed attempt makes it unhealthy. */
  lemma StatusStep(s: State, l: Label, h: Host)
    requires Enabled(s, l)
    ensures var n, n' := s.net.status, Apply(s, l).net.status;
            && (h in n ==> h in n')
            && (h in n' && n'[h].healthy ==> (h in n && n[h].healthy) || (l.Record? && s.net.making[l.w].h == h))
            && (Tries(l) && l.r.None? && Target(s, Trier(l)) == Some(h) ==> h in n' && !n'[h].healthy)
  {
  }

  ghost predicate Clears(l: Label, fd: Fd) {
    l.MarkHealth? && l.fd == fd
  }

  ghost predicate Closes(l: Label, fd: Fd) {
    l.Close? && l.fd == fd
  }

  lemma DoomedStep(s: State, l: Label, fd: Fd)
    requires Enabled(s, l)
    ensures Doomed(Apply(s, l), fd) <==> (Doomed(s, fd) && !Closes(l, fd)) || Clears(l, fd)
  {
    if l.MarkHealth? || l.MarkZombie? {
      MarkingStep(s, l, fd);
    } else {
      OtherDoomed(s, l, fd);
    }
  }

  lemma OtherDoomed(s: State, l: Label, fd: Fd)
    requires Enabled(s, l) && !l.MarkHealth? && !l.MarkZombie?
    ensures Doomed(Apply(s, l), fd) <==> Doomed(s, fd) && !Closes(l, fd)
  {
    SameMarks(s, Apply(s, l));
    if l.Close? {
      var s' := Apply(s, l);
      assert !Marked(s, l.fd) && (Gone(s', fd) <==> Gone(s, fd) || fd == l.fd);
    }
  }

  lemma SameMarks(s: State, s': State)
    requires s'.net.markers == s.net.markers
    ensures forall fd :: Marked(s', fd) <==> Marked(s, fd)
  {
    assert forall t, fd :: MarkedBy(s', t, fd) <==> MarkedBy(s, t, fd);
  }

  lemma MarkingStep(s: State, l: Label, fd: Fd)
    requires Enabled(s, l) && (l.MarkHealth? || l.MarkZombie?)
    ensures Doomed(Apply(s, l), fd) <==> Doomed(s, fd) || Clears(l, fd)
  {
    var s' := Apply(s, l);
    assert forall t :: t != l.t ==> (MarkedBy(s', t, fd) <==> MarkedBy(s, t, fd));
    if l.MarkHealth? {
      assert MarkedBy(s', l.t, l.fd);
    } else {
      assert MarkedBy(s, l.t, s.net.markers[l.t]) && !MarkedBy(s', l.t, fd);
    }
  }

  /** Whatever else happens, only connected descriptors are marked. */
  lemma KeepsMarks(s: State, l: Label)
    requires MarksConnected(s) && Enabled(s, l)
    ensures MarksConnected(Apply(s, l))
  {
    forall fd
      ensures Doomed(Apply(s, l), fd) ==> fd in Apply(s, l).net.conns
    {
      DoomedStep(s, l, fd);
    }
  }

  // ---------- Whole runs ----------

  const NO_CONNECTIONS := Net(map[], {}, map[], map[], map[], {}, {})

  function Start(desired: seq<Host>): State {
    State(NO_CONNECTIONS, Agenda(desired, 0, None, [], None), None, false, false, false)
  }

  ghost predicate Init(s: State) {
    Distinct(s.lists.desired) && s == Start(s.lists.desired)
  }

  /** The labels lead from the first of the states through the others. */
  ghost predicate Leads(ss: seq<State>, ls: seq<Label>) {
    && |ss| == |ls| + 1
    && forall i :: 0 <= i < |ls| ==> Enabled(ss[i], ls[i]) && ss[i + 1] == Apply(ss[i], ls[i])
  }

  ghost predicate IsRun(ss: seq<State>, ls: seq<Label>) {
    Leads(ss, ls) && Init(ss[0])
  }

  lemma Extend(ss: seq<State>, ls: seq<Label>, l: Label) returns (ss': seq<State>, ls': seq<Label>)
    requires Leads(ss, ls) && Enabled(ss[|ls|], l)
    ensures Leads(ss', ls') && ss'[0] == ss[0] && ls' == ls + [l] && ss'[|ls'|] == Apply(ss[|ls|], l)
  {
    ss', ls' := ss + [Apply(ss[|ls|], l)], ls + [l];
  }

  lemma {:induction false} LeadsKeeps(ss: seq<State>, ls: seq<Label>, i: nat)
    requires Leads(ss, ls) && Inv(ss[0]) && i <= |ls|
    ensures Sound(ss[i]) ==> Inv(ss[i])
  {
    if i > 0 {
      LeadsKeeps(ss, ls, i - 1);
      if Sound(ss[i]) {
        StepKeeps(ss[i - 1], ls[i - 1]);
      }
    }
  }

  lemma RunKeeps(ss: seq<State>, ls: seq<Label>, i: nat)
    requires IsRun(ss, ls) && i <= |ls|
    ensures Sound(ss[i]) ==> Inv(ss[i])
  {
    LeadsKeeps(ss, ls, i);
  }

  lemma {:induction false} UnsoundForever(ss: seq<State>, ls: seq<Label>, i: nat, j: nat)
    requires IsRun(ss, ls) && i <= j <= |ls| && Sound(ss[j])
    ensures Sound(ss[i])
    decreases j
  {
    if i < j {
      UnsoundForever(ss, ls, i, j - 1);
    }
  }

  lemma {:induction false} FirstUnsound(ss: seq<State>, ls: seq<Label>, j: nat) returns (k: nat)
    requires IsRun(ss, ls) && j <= |ls| && !Sound(ss[j])
    ensures 0 < k <= j && !Sound(ss[k]) && Sound(ss[k - 1])
  {
    if !Sound(ss[j - 1]) {
      k := FirstUnsound(ss, ls, j - 1);
    } else {
      k := j;
    }
  }

  /** After a pass that reconnected several hosts, the second is still listed, or the erasure was undefined. */
  lemma MultiMisplaces(s: State, l: Label)
    requires Inv(s) && Sound(s) && Enabled(s, l) && Apply(s, l).multi
    ensures !Accounted(Apply(s, l))
  {
    assert l.RetryEnd?;
    var s', sci := Apply(s, l), s.lists.attempt.value.sci;
    if !s'.undefined {
      SecondSurvives(s.lists.retry, sci);
      var h := s.lists.retry[sci[1]];
      var k :| 0 <= k < |s'.lists.retry| && s'.lists.retry[k] == h;
      assert ListedAt(s', h, k);
      assert forall j :: !ListedAt(s, h, j) by {
        assert sci[1] in sci;
      }
      assert Placed(s, h);
      ProcessedStep(s, l, h);
      assert forall fd :: ConnectedBy(s, h, fd) ==> ConnectedBy(s', h, fd);
      assert !Placed(s', h);
    }
  }

  /** A number that is given out again before it is reaped takes the place of its former host, which is then nowhere. */
  lemma ReuseMisplaces(s: State, l: Label)
    requires Inv(s) && Sound(s) && Enabled(s, l) && Apply(s, l).reused
    ensures !Accounted(Apply(s, l))
  {
    assert Tries(l) && l.r.Some? && l.r.value in s.net.conns;
    var s', fd := Apply(s, l), l.r.value;
    var h, g := s.net.conns[fd], Target(s, Trier(l)).value;
    TargetApart(s, l);
    assert ConnectedBy(s, h, fd) && g != h;
    assert Placed(s, h);
    ProcessedStep(s, l, h);
    assert forall k :: !ConnectedBy(s', h, k) by {
      assert forall k :: k != fd && ConnectedBy(s', h, k) ==> ConnectedBy(s, h, k);
    }
    assert forall k :: ListedAt(s', h, k) ==> ListedAt(s, h, k);
    assert !Placed(s', h);
  }

  /**
   No host is forgotten and none is tried twice over, in every state of a run, if and only if in that run no pass of the
   retry thread reconnects more than one host and no number of a connection is given out again before it is reaped.
   */
  lemma HostsAccountedExactly(ss: seq<State>, ls: seq<Label>)
    requires IsRun(ss, ls)
    ensures (forall i :: 0 <= i <= |ls| ==> Accounted(ss[i])) <==> Sound(ss[|ls|])
  {
    if !Sound(ss[|ls|]) {
      var k := FirstUnsound(ss, ls, |ls|);
      RunKeeps(ss, ls, k - 1);
      if ss[k].multi {
        MultiMisplaces(ss[k - 1], ls[k - 1]);
      } else {
        ReuseMisplaces(ss[k - 1], ls[k - 1]);
      }
      assert !Accounted(ss[k]);
    } else {
      forall i | 0 <= i <= |ls|
        ensures Accounted(ss[i])
      {
        UnsoundForever(ss, ls, i, |ls|);
        RunKeeps(ss, ls, i);
      }
    }
  }

  // ---------- What the flags mean ----------

  ghost predicate ReconnectsMany(s: State, l: Label) {
    l.RetryEnd? && s.lists.attempt.Some? && |s.lists.attempt.value.sci| > 1
  }

  ghost predicate TakesNumber(s: State, l: Label) {
    Tries(l) && l.r.Some? && l.r.value in s.net.conns
  }

  /** The two conditions, in terms of the steps of the run. */
  lemma {:induction false} SoundMeans(ss: seq<State>, ls: seq<Label>, i: nat)
    requires IsRun(ss, ls) && i <= |ls|
    ensures Sound(ss[i]) <==> forall k :: 0 <= k < i ==> !ReconnectsMany(ss[k], ls[k]) && !TakesNumber(ss[k], ls[k])
  {
    if i > 0 {
      SoundMeans(ss, ls, i - 1);
      SoundStep(ss[i - 1], ls[i - 1]);
    }
  }

  lemma SoundStep(s: State, l: Label)
    requires Enabled(s, l)
    ensures Sound(Apply(s, l)) <==> Sound(s) && !ReconnectsMany(s, l) && !TakesNumber(s, l)
  {
  }

  ghost predicate Records(s: State, l: Label, fd: Fd) {
    l.Record? && l.w in s.net.making && s.net.making[l.w].fd == fd
  }

  ghost predicate ClearedAt(ls: seq<Label>, i: nat, fd: Fd, b: int) {
    0 <= b < i <= |ls| && Clears(ls[b], fd) && forall k :: b < k < i ==> !Closes(ls[k], fd)
  }

  ghost predicate RecordedAt(ss: seq<State>, ls: seq<Label>, i: nat, fd: Fd, c: int) {
    && 0 <= c < i <= |ls| < |ss| && Records(ss[c], ls[c], fd)
    && forall k :: c < k < i ==> !Closes(ls[k], fd) && !Clears(ls[k], fd)
  }

  /**
   The connection of this descriptor was recorded after a thread had cleared the health of its host, and no thread has
   cleared it since.
   */
  ghost predicate RecordedLate(ss: seq<State>, ls: seq<Label>, i: nat, fd: Fd) {
    exists b, c: nat :: ClearedAt(ls, c, fd, b) && RecordedAt(ss, ls, i, fd, c)
  }

  lemma {:induction false} DoomedMeans(ss: seq<State>, ls: seq<Label>, i: nat, fd: Fd)
    requires IsRun(ss, ls) && i <= |ls|
    ensures Doomed(ss[i], fd) <==> exists b :: ClearedAt(ls, i, fd, b)
  {
    if i == 0 {
      assert forall t :: !MarkedBy(ss[0], t, fd);
    } else {
      DoomedMeans(ss, ls, i - 1, fd);
      DoomedStep(ss[i - 1], ls[i - 1], fd);
      ClearedStep(ls, i - 1, i, fd);
    }
  }

  lemma ClearedStep(ls: seq<Label>, j: nat, i: nat, fd: Fd)
    requires i == j + 1 <= |ls|
    ensures (exists b :: ClearedAt(ls, i, fd, b)) <==>
              ((exists b :: ClearedAt(ls, j, fd, b)) && !Closes(ls[j], fd)) || Clears(ls[j], fd)
  {
    if b :| ClearedAt(ls, i, fd, b) && b < j {
      assert ClearedAt(ls, j, fd, b);
    }
    if Clears(ls[j], fd) {
      assert ClearedAt(ls, i, fd, j);
    } else if b :| ClearedAt(ls, j, fd, b) && !Closes(ls[j], fd) {
      assert ClearedAt(ls, i, fd, b);
    }
  }

  lemma RevivedStep(s: State, l: Label, s': State, fd: Fd)
    requires Enabled(s, l) && s' == Apply(s, l)
    ensures fd in s'.net.revived <==>
              (fd in s.net.revived && !Closes(l, fd) && !Clears(l, fd)) || (Records(s, l, fd) && Doomed(s, fd))
  {
  }

  lemma {:induction false} RevivedMeans(ss: seq<State>, ls: seq<Label>, i: nat, fd: Fd)
    requires IsRun(ss, ls) && i <= |ls|
    ensures fd in ss[i].net.revived <==> RecordedLate(ss, ls, i, fd)
  {
    if i > 0 {
      var j := i - 1;
      RevivedMeans(ss, ls, j, fd);
      RevivedStep(ss[j], ls[j], ss[j + 1], fd);
      DoomedMeans(ss, ls, j, fd);
      RecordedStep(ss, ls, j, fd);
    }
  }

  lemma RecordedStep(ss: seq<State>, ls: seq<Label>, j: nat, fd: Fd)
    requires j < |ls| < |ss|
    ensures RecordedLate(ss, ls, j + 1, fd) <==>
              || (RecordedLate(ss, ls, j, fd) && !Closes(ls[j], fd) && !Clears(ls[j], fd))
              || (Records(ss[j], ls[j], fd) && exists b :: ClearedAt(ls, j, fd, b))
  {
    forall c: nat | c < j
      ensures RecordedAt(ss, ls, j + 1, fd, c)
              <==> RecordedAt(ss, ls, j, fd, c) && !Closes(ls[j], fd) && !Clears(ls[j], fd)
    {
    }
    assert RecordedAt(ss, ls, j + 1, fd, j) <==> Records(ss[j], ls[j], fd);
    if RecordedLate(ss, ls, j, fd) {
      var b, c: nat :| ClearedAt(ls, c, fd, b) && RecordedAt(ss, ls, j, fd, c);
      assert c < j;
    }
  }

  // ---------- Three places ----------

  ghost predicate AtRest(s: State) {
    s.lists.main == None && s.net.making == map[] && s.pass == None && s.lists.attempt == None && s.net.markers == map[]
  }

  ghost predicate HealthyAndConnected(s: State, h: Host) {
    h in s.net.status && s.net.status[h].healthy && ConnectedBy(s, h, s.net.status[h].sfd)
  }

  ghost predicate AwaitsReaper(s: State, h: Host) {
    exists fd :: fd in s.net.zm && ConnectedBy(s, h, fd)
  }

  ghost predicate HeldUp(ss: seq<State>, ls: seq<Label>, i: nat, h: Host)
    requires i < |ss|
  {
    exists fd :: ConnectedBy(ss[i], h, fd) && RecordedLate(ss, ls, i, fd)
  }

  /**
   When no thread is in the middle of something, each host tried so far is healthy and connected, or awaits the reaper
   through its marked descriptor, or is on the retry list. It is in exactly one of the three places if and only if its
   present connection was not recorded too late; otherwise it is in the first two. It is recorded as healthy exactly if
   it is in the first.
   */
  lemma ThreePlaces(ss: seq<State>, ls: seq<Label>, i: nat, h: Host)
    requires IsRun(ss, ls) && i <= |ls| && Sound(ss[i]) && AtRest(ss[i]) && Processed(ss[i], h)
    ensures var s := ss[i];
            var up, doomed, down := HealthyAndConnected(s, h), AwaitsReaper(s, h), h in s.lists.retry;
            && (ExactlyOne(up, doomed, down) <==> !HeldUp(ss, ls, i, h))
            && (HeldUp(ss, ls, i, h) ==> up && doomed && !down)
            && h in s.net.status && (s.net.status[h].healthy <==> up)
    ensures forall fd :: fd in ss[i].net.zm ==> fd in ss[i].net.conns
  {
    RunKeeps(ss, ls, i);
    var s := ss[i];
    assert Placed(s, h);
    assert forall fd :: !Marked(s, fd) by {
      assert forall t, fd :: !MarkedBy(s, t, fd);
    }
    assert forall fd :: fd in s.net.zm <==> Doomed(s, fd);
    assert forall fd :: !InMaking(s, fd);
    assert Listed(s, h) <==> h in s.lists.retry by {
      if h in s.lists.retry {
        var k :| 0 <= k < |s.lists.retry| && s.lists.retry[k] == h;
        assert ListedAt(s, h, k);
      }
    }
    forall fd
      ensures fd in s.net.revived <==> RecordedLate(ss, ls, i, fd)
    {
      RevivedMeans(ss, ls, i, fd);
    }
    if Connected(s, h) {
      var fd :| ConnectedBy(s, h, fd);
      assert forall k :: ConnectedBy(s, h, k) ==> k == fd;
      assert s.net.status[h] == Status(!Doomed(s, fd) || fd in s.net.revived, fd);
    }
  }

  /** As long as some thread is in the middle of something, some thread can go on. */
  lemma SomeoneGoesOn(ss: seq<State>, ls: seq<Label>, i: nat) returns (l: Label)
    requires IsRun(ss, ls) && i <= |ls| && Sound(ss[i]) && !AtRest(ss[i])
    ensures Enabled(ss[i], l)
    ensures l.Record? || l.PushMain? || l.MarkZombie? || l.ReapPush? || l.ReapEnd? || l.RetryEnd?
            || l == Reopen(None) || l == Retry(None)
  {
    RunKeeps(ss, ls, i);
    var s := ss[i];
    if s.net.making != map[] {
      var w :| w in s.net.making;
      l := Record(w);
    } else if s.lists.attempt.Some? {
      l := if s.lists.attempt.value.i < |s.lists.retry| then Retry(None) else RetryEnd;
    } else if s.lists.main.Some? {
      l := PushMain;
    } else if s.pass.Some? {
      l := match s.pass.value.todo
           case Nothing => ReapEnd
           case Reconnect(_) => Reopen(None)
           case Push(_) => ReapPush;
    } else {
      if !(exists t :: t in s.net.markers) {
        assert false;
      }
      var t :| t in s.net.markers;
      l := MarkZombie(t);
    }
  }
}
