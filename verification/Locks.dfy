/**
 Which mutexes each thread of a server or a client takes, how they nest, and why no threads can wait for one another
 in a circle. The code locks and unlocks in brackets, so what a thread does to mutexes is a tree.
 */
module Locks {

  type Fd = int
  type Tid = int

  datatype Lock =
    | RR(fd: Fd)   // the mutex of a descriptor's reader
    | WR(fd: Fd)   // the mutex of a descriptor's writer
    | Z            // z_mutex
    | EH           // eh_mutex
    | CB           // call_backs_mutex
    | R            // r_mutex
    | W            // w_mutex
    | E            // e_mutex
    | CONN         // conn_mutex
    | HS           // hs_mutex

  function Rank(l: Lock): nat {
    match l
    case RR(_) => 1
    case WR(_) => 2
    case Z => 3
    case EH => 4
    case CB => 5
    case _ => 6
  }

  datatype Prog =
    | Done
    | Then(first: Prog, second: Prog)
    | With(l: Lock, body: Prog)
    | Touch(l: Lock)          // uses what the mutex is there to protect

  /** Every mutex is taken while holding only mutexes of lower rank. */
  predicate Nested(p: Prog, floor: nat) {
    match p
    case Done => true
    case Then(a, b) => Nested(a, floor) && Nested(b, floor)
    case With(l, body) => Rank(l) > floor && Nested(body, Rank(l))
    case Touch(_) => true
  }

  /** What is protected is used only under its mutex, or is among the exceptions. */
  predicate Guarded(p: Prog, held: set<Lock>, exceptions: set<Lock>) {
    match p
    case Done => true
    case Then(a, b) => Guarded(a, held, exceptions) && Guarded(b, held, exceptions)
    case With(l, body) => Guarded(body, held + {l}, exceptions)
    case Touch(l) => l in held || l in exceptions
  }

  function Once(l: Lock): Prog {
    With(l, Touch(l))
  }

  // ---------- What the threads do ----------

  datatype ReadEnd = AgainArmed | SideClosed
  datatype WriteEnd = AllWritten | WriteArmed | WriterClosed
  datatype Reply = Reply(fd: Fd, found: bool)

  /** A message that a response callback sends: where to, and whether the host is healthy and the writer valid. */
  datatype Send = Send(fd: Fd, healthy: bool, callback: bool, valid: bool, blocking: bool) {
    /** It comes back to the table of callbacks. */
    predicate Asks() { blocking || (healthy && callback) }

    /** It gets as far as the writer, and leaves the table of callbacks alone. */
    predicate Tells() { healthy && !callback && !blocking }

    /** It reads the status of its host without `hs_mutex`. */
    predicate Peeks() { healthy || blocking }
  }

  /** What a response callback does to the client. */
  datatype Callback = Callback(sends: seq<Send>, throws: bool) {
    ghost predicate Peeks() { exists i :: 0 <= i < |sends| && sends[i].Peeks() }
  }

  /** What response callbacks may do. */
  datatype Policy = Policy(throws: bool, asks: bool, tells: bool) {
    ghost predicate Allows(c: Callback) {
      && (c.throws ==> throws)
      && forall i :: 0 <= i < |c.sends| ==> (c.sends[i].Asks() ==> asks) && (c.sends[i].Tells() ==> tells)
    }
  }

  const HARMLESS := Policy(false, false, false)

  datatype Op =
    // server
    | ServerAdd
    | ServerToggle
    | ServerHangUp
    | ServerSend(r: Reply)
    | ServerRead(fd: Fd, found: bool, valid: bool, replies: seq<Reply>, rend: ReadEnd)
    | ServerWrite(fd: Fd, found: bool, valid: bool, wend: WriteEnd)
    | ServerReap(fds: seq<Fd>)
    // client
    | ClientConnect(connected: seq<bool>)
    | ClientToggle
    | ClientHangUp
    | ClientSend(fd: Fd, healthy: bool, callback: bool, valid: bool)
    | ClientBlockingSend(fd: Fd, healthy: bool, valid: bool)
    | ClientRead(fd: Fd, valid: bool, callbacks: seq<Callback>, rend: ReadEnd)
    | ClientWrite(fd: Fd, valid: bool, wend: WriteEnd)
    | ClientReap(reconnected: seq<bool>)
    | ClientRetry(reconnected: seq<bool>)
  {
    ghost predicate Within(p: Policy) {
      ClientRead? && valid ==> forall i :: 0 <= i < |callbacks| ==> p.Allows(callbacks[i])
    }

    /** It reads the status of a host without `hs_mutex`. */
    ghost predicate Peeks() {
      || (ClientSend? && healthy) || ClientBlockingSend? || (ClientReap? && reconnected != [])
      || (ClientRead? && valid && exists i :: 0 <= i < |callbacks| && callbacks[i].Peeks())
    }
  }

  function SendTo(r: Reply): Prog {
    Then(Once(W), if r.found then Then(Once(WR(r.fd)), Once(E)) else Done)
  }

  function Replies(rs: seq<Reply>): Prog {
    if rs == [] then Done else Then(SendTo(rs[0]), Replies(rs[1..]))
  }

  function CleanServer(fds: seq<Fd>): Prog {
    if fds == [] then Done else Then(Then(Once(R), Then(Once(W), Once(E))), CleanServer(fds[1..]))
  }

  // a_zombied of the client
  const MARK := Then(Once(CONN), Then(Once(HS), Once(Z)))

  function Connect(success: bool): Prog {
    Then(if success then Then(Once(CONN), Once(E)) else Done, Once(HS))
  }

  function ConnectAll(successes: seq<bool>): Prog {
    if successes == [] then Done
    else Then(Then(Connect(successes[0]), if successes[0] then Done else Once(EH)), ConnectAll(successes[1..]))
  }

  function RetryAll(successes: seq<bool>): Prog {
    if successes == [] then Done else Then(Connect(successes[0]), RetryAll(successes[1..]))
  }

  // close_n_clean of the client
  const CLEAN := Then(Once(CONN), Then(Once(CB), Then(Once(R), Then(Once(W), Once(E)))))

  function CleanClient(reconnected: seq<bool>): Prog {
    if reconnected == [] then Done
    else Then(Then(Then(Then(Once(CONN), Touch(HS)), Then(CLEAN, Connect(reconnected[0]))),
                   if reconnected[0] then Done else Once(EH)),
              CleanClient(reconnected[1..]))
  }

  function Sends(sends: seq<Send>): Prog {
    if sends == [] then Done
    else
      var s := sends[0];
      var send := ClientSendProg(s.fd, s.healthy, s.callback || s.blocking, s.valid);
      Then(Then(if s.blocking then Touch(HS) else Done, Then(send, if s.blocking then Once(CB) else Done)),
           Sends(sends[1..]))
  }

  /** The callback runs under `call_backs_mutex`; if it throws, the descriptor is marked under it. */
  function Respond(c: Callback): Prog {
    With(CB, Then(Touch(CB), Then(Sends(c.sends), if c.throws then MARK else Done)))
  }

  function Responses(callbacks: seq<Callback>): Prog {
    if callbacks == [] then Done else Then(Respond(callbacks[0]), Responses(callbacks[1..]))
  }

  function Enqueue(fd: Fd, callback: bool, valid: bool): Prog {
    Then(if callback then Once(CB) else Done,
         Then(Once(W), Then(Once(WR(fd)), if valid then Once(E) else Done)))
  }

  function ClientSendProg(fd: Fd, healthy: bool, callback: bool, valid: bool): Prog {
    Then(Once(HS),
         if healthy then Then(Touch(HS), Enqueue(fd, callback, valid)) else Done)
  }

  function Program(op: Op): Prog {
    match op
    case ServerAdd => Then(Once(R), Then(Once(W), Once(E)))
    case ServerToggle => Once(E)
    case ServerHangUp => Once(Z)
    case ServerSend(r) => SendTo(r)
    case ServerRead(fd, found, valid, replies, end) =>
      Then(Once(R),
           if !found then Done
           else
             With(RR(fd), Then(Touch(RR(fd)),
                  if valid then Then(Replies(replies), if end == SideClosed then Once(Z) else Once(E)) else Done)))
    case ServerWrite(fd, found, valid, end) =>
      Then(Once(W),
           if !found then Done
           else
             With(WR(fd), Then(Touch(WR(fd)),
                  if !valid || end == AllWritten then Done else if end == WriterClosed then Once(Z) else Once(E))))
    case ServerReap(fds) => With(Z, Then(Touch(Z), CleanServer(fds)))
    case ClientConnect(connected) => ConnectAll(connected)
    case ClientToggle => Once(E)
    case ClientHangUp => MARK
    case ClientSend(fd, healthy, callback, valid) => ClientSendProg(fd, healthy, callback, valid)
    case ClientBlockingSend(fd, healthy, valid) =>
      Then(Touch(HS), Then(ClientSendProg(fd, healthy, true, valid), Once(CB)))
    case ClientRead(fd, valid, callbacks, end) =>
      Then(Once(R),
           With(RR(fd), Then(Touch(RR(fd)),
                if valid then Then(Responses(callbacks), if end == SideClosed then MARK else Once(E)) else Done)))
    case ClientWrite(fd, valid, end) =>
      Then(Once(W),
           With(WR(fd), Then(Touch(WR(fd)),
                if !valid || end == AllWritten then Done else if end == WriterClosed then MARK else Once(E))))
    case ClientReap(reconnected) => With(Z, Then(Touch(Z), CleanClient(reconnected)))
    case ClientRetry(reconnected) => With(EH, Then(Touch(EH), RetryAll(reconnected)))
  }

  /**
   Everything a server or a client does respects the ranks, but for exactly those read tasks of the client of which a
   response callback throws, or sends a message that gets past the test of the host's health.
   */
  lemma AllRanked(op: Op)
    ensures Nested(Program(op), 0) <==> op.Within(HARMLESS)
  {
    if op.ServerRead? {
      ServerReadRanked(op);
    } else if op.ClientRead? {
      ClientReadRanked(op);
    } else if op.ServerWrite? || op.ClientWrite? {
      WriteRanked(op);
    } else if op.ClientSend? {
      ClientSendRanked(op.fd, op.healthy, op.callback, op.valid);
    } else if op.ClientBlockingSend? {
      ClientSendRanked(op.fd, op.healthy, true, op.valid);
      OnceRanked(CB, 0);
      assert Nested(Then(ClientSendProg(op.fd, op.healthy, true, op.valid), Once(CB)), 0);
    } else {
      OtherRanked(op);
    }
  }

  lemma ServerReadRanked(op: Op)
    requires op.ServerRead?
    ensures Nested(Program(op), 0)
  {
    OnceRanked(R, 0);
    OnceRanked(Z, 1);
    OnceRanked(E, 1);
    RepliesRanked(op.replies);
    var body := Then(Replies(op.replies), if op.rend == SideClosed then Once(Z) else Once(E));
    assert Nested(body, 1);
    HeldRanked(RR(op.fd), if op.valid then body else Done);
  }

  // A section of a descriptor's mutex, which begins with a look at what it protects.
  lemma HeldRanked(l: Lock, body: Prog)
    requires Rank(l) > 0
    ensures Nested(With(l, Then(Touch(l), body)), 0) <==> Nested(body, Rank(l))
  {
    assert Nested(Touch(l), Rank(l));
    assert Nested(Then(Touch(l), body), Rank(l)) <==> Nested(body, Rank(l));
  }

  lemma ClientReadRanked(op: Op)
    requires op.ClientRead?
    ensures Nested(Program(op), 0) <==> op.Within(HARMLESS)
  {
    OnceRanked(R, 0);
    OnceRanked(E, 1);
    MarkRanked(1);
    ResponsesRanked(op.callbacks);
    var body := Then(Responses(op.callbacks), if op.rend == SideClosed then MARK else Once(E));
    assert Nested(body, 1) <==> Nested(Responses(op.callbacks), 1);
    HeldRanked(RR(op.fd), if op.valid then body else Done);
  }

  lemma WriteRanked(op: Op)
    requires op.ServerWrite? || op.ClientWrite?
    ensures Nested(Program(op), 0)
  {
    OnceRanked(W, 0);
    OnceRanked(Z, 2);
    OnceRanked(E, 2);
    MarkRanked(2);
    var close := if op.ServerWrite? then Once(Z) else MARK;
    var body := if !op.valid || op.wend == AllWritten then Done else if op.wend == WriterClosed then close else Once(E);
    assert Nested(body, 2);
    HeldRanked(WR(op.fd), body);
  }

  lemma OtherRanked(op: Op)
    requires !op.ServerRead? && !op.ClientRead? && !op.ServerWrite? && !op.ClientWrite?
    requires !op.ClientSend? && !op.ClientBlockingSend?
    ensures Nested(Program(op), 0)
  {
    match op
    case ServerAdd =>
      OnceRanked(R, 0);
      OnceRanked(W, 0);
      OnceRanked(E, 0);
      assert Nested(Then(Once(W), Once(E)), 0);
    case ServerSend(r) => SendRanked(r, 0);
    case ServerReap(fds) => CleanServerRanked(fds);
    case ClientHangUp => MarkRanked(0);
    case ClientConnect(connected) => ConnectAllRanked(connected);
    case ClientReap(reconnected) => CleanClientRanked(reconnected);
    case ClientRetry(reconnected) => RetryRanked(reconnected);
    case ServerToggle => OnceRanked(E, 0);
    case ClientToggle => OnceRanked(E, 0);
    case ServerHangUp => OnceRanked(Z, 0);
  }

  lemma OnceRanked(l: Lock, floor: nat)
    requires Rank(l) > floor
    ensures Nested(Once(l), floor)
  {
    assert Nested(Done, Rank(l));
  }

  lemma SendRanked(r: Reply, floor: nat)
    requires floor <= 1
    ensures Nested(SendTo(r), floor)
  {
    OnceRanked(W, floor);
    OnceRanked(WR(r.fd), floor);
    OnceRanked(E, floor);
    if r.found {
      assert Nested(Then(Once(WR(r.fd)), Once(E)), floor);
    }
  }

  lemma MarkRanked(floor: nat)
    requires floor < 3
    ensures Nested(MARK, floor)
  {
    OnceRanked(CONN, floor);
    OnceRanked(HS, floor);
    OnceRanked(Z, floor);
    assert Nested(Then(Once(HS), Once(Z)), floor);
  }

  lemma ClientSendRanked(fd: Fd, healthy: bool, callback: bool, valid: bool)
    ensures Nested(ClientSendProg(fd, healthy, callback, valid), 0)
  {
    OnceRanked(HS, 0);
    OnceRanked(CB, 0);
    OnceRanked(W, 0);
    OnceRanked(WR(fd), 0);
    OnceRanked(E, 0);
    var arm := Then(Once(WR(fd)), if valid then Once(E) else Done);
    assert Nested(arm, 0);
    assert Nested(Then(Once(W), arm), 0);
    assert Nested(Enqueue(fd, callback, valid), 0);
    assert Nested(Touch(HS), 0);
    assert Nested(Then(Touch(HS), Enqueue(fd, callback, valid)), 0);
  }

  lemma {:induction false} RepliesRanked(rs: seq<Reply>)
    ensures Nested(Replies(rs), 1)
  {
    if rs != [] {
      RepliesRanked(rs[1..]);
      SendRanked(rs[0], 1);
    }
  }

  lemma {:induction false} CleanServerRanked(fds: seq<Fd>)
    ensures Nested(CleanServer(fds), 3)
  {
    if fds != [] {
      CleanServerRanked(fds[1..]);
    }
  }

  lemma {:induction false} ConnectAllRanked(successes: seq<bool>)
    ensures Nested(ConnectAll(successes), 0)
  {
    if successes != [] {
      ConnectAllRanked(successes[1..]);
    }
  }

  lemma {:induction false} ResponsesRanked(callbacks: seq<Callback>)
    ensures Nested(Responses(callbacks), 1) <==> forall i :: 0 <= i < |callbacks| ==> HARMLESS.Allows(callbacks[i])
  {
    if callbacks != [] {
      var rest := callbacks[1..];
      ResponsesRanked(rest);
      RespondRanked(callbacks[0]);
      assert forall i :: 0 < i < |callbacks| ==> callbacks[i] == rest[i - 1];
      assert forall i :: 0 <= i < |rest| ==> rest[i] == callbacks[i + 1];
    }
  }

  lemma RespondRanked(c: Callback)
    ensures Nested(Respond(c), 1) <==> HARMLESS.Allows(c)
  {
    SendsRanked(c.sends);
    assert !Nested(MARK, Rank(CB)) by {
      assert !Nested(Once(Z), Rank(CB));
      assert !Nested(Then(Once(HS), Once(Z)), Rank(CB));
    }
    var body := Then(Sends(c.sends), if c.throws then MARK else Done);
    assert Nested(body, Rank(CB)) <==> Nested(Sends(c.sends), Rank(CB)) && !c.throws;
    assert Nested(Then(Touch(CB), body), Rank(CB)) <==> Nested(body, Rank(CB));
  }

  lemma {:induction false} SendsRanked(sends: seq<Send>)
    ensures Nested(Sends(sends), Rank(CB)) <==>
              forall i :: 0 <= i < |sends| ==> !sends[i].Asks() && !sends[i].Tells()
  {
    if sends != [] {
      var s, rest := sends[0], sends[1..];
      SendsRanked(rest);
      ReentryRanked(s.fd, s.healthy, s.callback || s.blocking, s.valid);
      assert !Nested(Once(CB), Rank(CB));
      var send := Then(ClientSendProg(s.fd, s.healthy, s.callback || s.blocking, s.valid),
                       if s.blocking then Once(CB) else Done);
      assert Nested(send, Rank(CB)) <==> !s.healthy && !s.blocking;
      assert forall i :: 0 < i < |sends| ==> sends[i] == rest[i - 1];
      assert forall i :: 0 <= i < |rest| ==> rest[i] == sends[i + 1];
    }
  }

  // Under `call_backs_mutex`, a send is in rank order if it stops at the health of the host.
  lemma ReentryRanked(fd: Fd, healthy: bool, callback: bool, valid: bool)
    ensures Nested(ClientSendProg(fd, healthy, callback, valid), Rank(CB)) <==> !healthy
  {
    OnceRanked(HS, Rank(CB));
    if healthy {
      var arm := Then(Once(WR(fd)), if valid then Once(E) else Done);
      assert !Nested(Once(WR(fd)), Rank(CB));
      assert !Nested(arm, Rank(CB));
      assert !Nested(Then(Once(W), arm), Rank(CB));
      assert !Nested(Enqueue(fd, callback, valid), Rank(CB));
      assert !Nested(Then(Touch(HS), Enqueue(fd, callback, valid)), Rank(CB));
    } else {
      assert Nested(Done, Rank(CB));
    }
  }

  lemma {:induction false} CleanClientRanked(reconnected: seq<bool>)
    ensures Nested(CleanClient(reconnected), 3)
  {
    if reconnected != [] {
      CleanClientRanked(reconnected[1..]);
    }
  }

  lemma {:induction false} RetryRanked(successes: seq<bool>)
    ensures Nested(RetryAll(successes), 4)
  {
    if successes != [] {
      RetryRanked(successes[1..]);
    }
  }

  // ---------- Threads and mutexes ----------

  datatype Act = Acquire(l: Lock) | Release(l: Lock) | Access(l: Lock)

  function Trace(p: Prog): seq<Act> {
    match p
    case Done => []
    case Then(a, b) => Trace(a) + Trace(b)
    case With(l, body) => [Acquire(l)] + Trace(body) + [Release(l)]
    case Touch(l) => [Access(l)]
  }

  datatype Thread = Thread(held: set<Lock>, todo: seq<Act>)

  type State = map<Tid, Thread>

  datatype Label = Start(t: Tid, op: Op) | Step(t: Tid)

  ghost predicate HeldBy(s: State, l: Lock, u: Tid) {
    u in s && l in s[u].held
  }

  ghost predicate Enabled(s: State, l: Label) {
    match l
    case Start(t, op) => t !in s
    case Step(t) =>
      && t in s && s[t].todo != []
      && (s[t].todo[0].Acquire? ==> forall u :: !HeldBy(s, s[t].todo[0].l, u))
  }

  ghost function Apply(s: State, l: Label): State
    requires Enabled(s, l)
  {
    match l
    case Start(t, op) => s[t := Thread({}, Trace(Program(op)))]
    case Step(t) =>
      var th := s[t];
      s[t := match th.todo[0]
             case Acquire(k) => Thread(th.held + {k}, th.todo[1..])
             case Release(k) => Thread(th.held - {k}, th.todo[1..])
             case Access(_) => Thread(th.held, th.todo[1..])]
  }

  ghost predicate IsRun(ss: seq<State>, ls: seq<Label>) {
    && |ss| == |ls| + 1 && ss[0] == map[]
    && forall i :: 0 <= i < |ls| ==> Enabled(ss[i], ls[i]) && ss[i + 1] == Apply(ss[i], ls[i])
  }

  /** The actions, done while `held` is held, respect the ranks and end with `after` held. */
  ghost predicate Flow(todo: seq<Act>, held: set<Lock>, after: set<Lock>) {
    if todo == [] then held == after
    else match todo[0]
      case Acquire(l) => (forall h :: h in held ==> Rank(h) < Rank(l)) && Flow(todo[1..], held + {l}, after)
      case Release(l) => l in held && Flow(todo[1..], held - {l}, after)
      case Access(_) => Flow(todo[1..], held, after)
  }

  lemma {:induction false} FlowAppend(a: seq<Act>, b: seq<Act>, x: set<Lock>, y: set<Lock>, z: set<Lock>)
    requires Flow(a, x, y) && Flow(b, y, z)
    ensures Flow(a + b, x, z)
  {
    if a == [] {
      assert a + b == b;
    } else {
      assert (a + b)[1..] == a[1..] + b;
      match a[0]
      case Acquire(l) => FlowAppend(a[1..], b, x + {l}, y, z);
      case Release(l) => FlowAppend(a[1..], b, x - {l}, y, z);
      case Access(_) => FlowAppend(a[1..], b, x, y, z);
    }
  }

  lemma {:induction false} NestedFlows(p: Prog, floor: nat, held: set<Lock>)
    requires Nested(p, floor) && forall h :: h in held ==> Rank(h) <= floor
    ensures Flow(Trace(p), held, held)
  {
    match p
    case Done =>
    case Then(a, b) =>
      NestedFlows(a, floor, held);
      NestedFlows(b, floor, held);
      FlowAppend(Trace(a), Trace(b), held, held, held);
    case With(l, body) =>
      var inside := held + {l};
      NestedFlows(body, Rank(l), inside);
      assert inside - {l} == held;
      assert Flow([Release(l)], inside, held);
      FlowAppend(Trace(body), [Release(l)], inside, inside, held);
      assert [Acquire(l)] + Trace(body) + [Release(l)] == [Acquire(l)] + (Trace(body) + [Release(l)]);
    case Touch(l) => assert Flow([], held, held);
  }

  /** Each thread's remaining actions respect the ranks, and no mutex has two holders. */
  ghost predicate Inv(s: State) {
    && (forall t :: t in s ==> Flow(s[t].todo, s[t].held, {}))
    && (forall t, u, l :: HeldBy(s, l, t) && HeldBy(s, l, u) ==> t == u)
  }

  lemma StepKeeps(s: State, l: Label)
    requires Inv(s) && Enabled(s, l) && (l.Start? ==> Nested(Program(l.op), 0))
    ensures Inv(Apply(s, l))
  {
    if l.Start? {
      NestedFlows(Program(l.op), 0, {});
    }
    var s' := Apply(s, l);
    assert forall k, u :: u != l.t ==> (HeldBy(s', k, u) <==> HeldBy(s, k, u));
    assert forall k :: HeldBy(s', k, l.t) ==> HeldBy(s, k, l.t) || (l.Step? && s[l.t].todo[0] == Acquire(k));
  }

  lemma {:induction false} RunKeeps(ss: seq<State>, ls: seq<Label>, i: nat)
    requires IsRun(ss, ls) && i <= |ls|
    requires forall k :: 0 <= k < |ls| && ls[k].Start? ==> Nested(Program(ls[k].op), 0)
    ensures Inv(ss[i])
  {
    if i > 0 {
      RunKeeps(ss, ls, i - 1);
      StepKeeps(ss[i - 1], ls[i - 1]);
    }
  }

  // ---------- No circle ----------

  /** Thread t waits for a mutex that thread u holds. */
  ghost predicate WaitsFor(s: State, t: Tid, u: Tid) {
    t in s && s[t].todo != [] && s[t].todo[0].Acquire? && HeldBy(s, s[t].todo[0].l, u)
  }

  ghost predicate Chain(s: State, path: seq<Tid>) {
    path != [] && forall i :: 0 <= i < |path| - 1 ==> WaitsFor(s, path[i], path[i + 1])
  }

  ghost predicate Circle(s: State, path: seq<Tid>) {
    Chain(s, path) && WaitsFor(s, path[|path| - 1], path[0])
  }

  lemma WaitedForRank(s: State, t: Tid, u: Tid, v: Tid)
    requires Inv(s) && WaitsFor(s, t, u) && WaitsFor(s, u, v)
    ensures Rank(s[t].todo[0].l) < Rank(s[u].todo[0].l)
  {
  }

  lemma {:induction false} ChainRank(s: State, path: seq<Tid>, u: Tid)
    requires Inv(s) && Chain(s, path) && WaitsFor(s, path[|path| - 1], u)
    ensures WaitsFor(s, path[0], if |path| > 1 then path[1] else u)
    ensures Rank(s[path[0]].todo[0].l) <= Rank(s[path[|path| - 1]].todo[0].l)
  {
    var n := |path| - 1;
    if n > 0 {
      assert WaitsFor(s, path[n - 1], path[n]);
      ChainRank(s, path[..n], path[n]);
      WaitedForRank(s, path[n - 1], path[n], u);
    }
  }

  lemma NoCircle(s: State, path: seq<Tid>)
    requires Inv(s) && Chain(s, path)
    ensures !Circle(s, path)
  {
    if WaitsFor(s, path[|path| - 1], path[0]) {
      ChainRank(s, path, path[0]);
    }
  }

  /** Whoever waits, waits, through the holders of mutexes, for a thread that can go on. */
  lemma {:induction false} SomeoneGoesOn(s: State, t: Tid) returns (path: seq<Tid>)
    requires Inv(s) && t in s && s[t].todo != []
    ensures Chain(s, path) && path[0] == t && Enabled(s, Step(path[|path| - 1]))
    decreases 7 - (if s[t].todo[0].Acquire? then Rank(s[t].todo[0].l) else 7)
  {
    if Enabled(s, Step(t)) {
      path := [t];
    } else {
      var l := s[t].todo[0].l;
      var u :| HeldBy(s, l, u);
      assert s[u].todo != [];
      var rest := SomeoneGoesOn(s, u);
      path := [t] + rest;
      assert forall i :: 0 <= i < |path| - 1 ==> path[i + 1] == rest[i];
    }
  }

  ghost predicate Started(ls: seq<Label>, p: Policy) {
    forall k :: 0 <= k < |ls| && ls[k].Start? ==> ls[k].op.Within(p)
  }

  ghost predicate RunTo(ss: seq<State>, ls: seq<Label>, p: Policy, s: State) {
    IsRun(ss, ls) && Started(ls, p) && ss[|ls|] == s
  }

  /** A state that can be reached when response callbacks do nothing but what the policy allows. */
  ghost predicate Reachable(s: State, p: Policy) {
    exists ss, ls :: RunTo(ss, ls, p, s)
  }

  /** In no reachable state do threads wait for one another in a circle. */
  ghost predicate DeadlockFree(p: Policy) {
    forall s, path :: Reachable(s, p) ==> !Circle(s, path)
  }

  /**
   Any number of threads, descriptors and operations: the locking is free of deadlock exactly if response callbacks
   neither throw nor send.
   */
  lemma DeadlockFreeExactly(p: Policy)
    ensures DeadlockFree(p) <==> !p.throws && !p.asks && !p.tells
  {
    if p.throws {
      var s := ThrowingDeadlock(p);
      assert Circle(s, [1, 2]);
    } else if p.asks {
      var s := AskingDeadlock(p);
      assert Circle(s, [1]);
    } else if p.tells {
      var s := TellingDeadlock(p);
      assert Circle(s, [1, 2, 3]);
    } else {
      forall s, path | Reachable(s, p)
        ensures !Circle(s, path)
      {
        ReachableInv(s);
        if Chain(s, path) {
          NoCircle(s, path);
        }
      }
    }
  }

  lemma ReachableInv(s: State)
    requires Reachable(s, HARMLESS)
    ensures Inv(s)
  {
    var ss: seq<State>, ls: seq<Label> :| RunTo(ss, ls, HARMLESS, s);
    forall k | 0 <= k < |ls| && ls[k].Start?
      ensures Nested(Program(ls[k].op), 0)
    {
      AllRanked(ls[k].op);
    }
    RunKeeps(ss, ls, |ls|);
  }

  /** With such callbacks, whoever waits in a reachable state waits for a thread that can go on. */
  lemma NobodyIsStuck(s: State, t: Tid) returns (path: seq<Tid>)
    requires Reachable(s, HARMLESS) && t in s && s[t].todo != []
    ensures Chain(s, path) && path[0] == t && Enabled(s, Step(path[|path| - 1]))
  {
    ReachableInv(s);
    path := SomeoneGoesOn(s, t);
  }

  // ---------- Runs that end in a circle ----------

  lemma ReachStep(p: Policy, s: State, l: Label)
    requires Reachable(s, p) && Enabled(s, l) && (l.Start? ==> l.op.Within(p))
    ensures Reachable(Apply(s, l), p)
  {
    var ss: seq<State>, ls: seq<Label> :| RunTo(ss, ls, p, s);
    assert RunTo(ss + [Apply(s, l)], ls + [l], p, Apply(s, l));
  }

  lemma StartThread(p: Policy, others: State, t: Tid, op: Op)
    requires t !in others && Reachable(others, p) && op.Within(p)
    ensures Reachable(others[t := Thread({}, Trace(Program(op)))], p)
  {
    ReachStep(p, others, Start(t, op));
  }

  lemma ReachNothing(p: Policy)
    ensures Reachable(map[], p)
  {
    var none: State := map[];
    assert RunTo([none], [], p, none);
  }

  /** Thread t does its next action, which no other thread is in the way of. */
  lemma Advance(p: Policy, others: State, t: Tid, now: Thread, next: Thread)
    requires t !in others && Reachable(others[t := now], p) && now.todo != []
    requires next.todo == now.todo[1..]
    requires now.todo[0].Acquire? ==>
               now.todo[0].l !in now.held && forall u :: u in others ==> now.todo[0].l !in others[u].held
    requires next.held == match now.todo[0]
                          case Acquire(l) => now.held + {l}
                          case Release(l) => now.held - {l}
                          case Access(_) => now.held
    ensures Reachable(others[t := next], p)
  {
    ReachStep(p, others[t := now], Step(t));
    assert others[t := now][t := next] == others[t := next];
  }

  /** Thread t takes a mutex, uses what it protects, and gives it back. */
  lemma Pass(p: Policy, others: State, t: Tid, held: set<Lock>, todo: seq<Act>, l: Lock)
    requires t !in others && Reachable(others[t := Thread(held, todo)], p)
    requires |todo| >= 3 && todo[0] == Acquire(l) && todo[1] == Access(l) && todo[2] == Release(l)
    requires l !in held && forall u :: u in others ==> l !in others[u].held
    ensures Reachable(others[t := Thread(held, todo[3..])], p)
  {
    Advance(p, others, t, Thread(held, todo), Thread(held + {l}, todo[1..]));
    Advance(p, others, t, Thread(held + {l}, todo[1..]), Thread(held + {l}, todo[2..]));
    Advance(p, others, t, Thread(held + {l}, todo[2..]), Thread(held, todo[3..]));
  }

  ghost predicate Begins(t: seq<Act>, start: seq<Act>) {
    |start| <= |t| && forall i :: 0 <= i < |start| ==> t[i] == start[i]
  }

  /** A read task on descriptor 5 gets as far as its callback. */
  lemma ToCallback(p: Policy, t: seq<Act>)
    requires Reachable(map[1 := Thread({}, t)], p) && |t| > 7 && Begins(t, CALLING)
    ensures Reachable(map[1 := Thread({RR(5), CB}, t[7..])], p)
  {
    var own := {RR(5), CB};
    Pass(p, map[], 1, {}, t, R);
    Advance(p, map[], 1, Thread({}, t[3..]), Thread({RR(5)}, t[4..]));
    Advance(p, map[], 1, Thread({RR(5)}, t[4..]), Thread({RR(5)}, t[5..]));
    Advance(p, map[], 1, Thread({RR(5)}, t[5..]), Thread(own, t[6..]));
    Advance(p, map[], 1, Thread(own, t[6..]), Thread(own, t[7..]));
  }

  /** The reaper gets as far as the callbacks of a descriptor. */
  lemma ToCleaning(p: Policy, others: State, t: Tid) returns (todo: seq<Act>)
    requires Reachable(others, p) && t !in others
    requires forall u :: u in others ==> Z !in others[u].held && CONN !in others[u].held
    ensures Reachable(others[t := Thread({Z}, todo)], p) && todo != [] && todo[0] == Acquire(CB)
  {
    var trace := ReaperTrace();
    StartThread(p, others, t, ClientReap([true]));
    Advance(p, others, t, Thread({}, trace), Thread({Z}, trace[1..]));
    Advance(p, others, t, Thread({Z}, trace[1..]), Thread({Z}, trace[2..]));
    Pass(p, others, t, {Z}, trace[2..], CONN);
    Advance(p, others, t, Thread({Z}, trace[5..]), Thread({Z}, trace[6..]));
    Pass(p, others, t, {Z}, trace[6..], CONN);
    todo := trace[9..];
  }

  /** A read task whose callback throws waits for `z_mutex`; the reaper holds that and waits for `call_backs_mutex`. */
  lemma ThrowingDeadlock(p: Policy) returns (s: State)
    requires p.throws
    ensures Reachable(s, p) && WaitsFor(s, 1, 2) && WaitsFor(s, 2, 1)
  {
    ReachNothing(p);
    var t := ThrowingTrace();
    StartThread(p, map[], 1, ClientRead(5, true, [Callback([], true)], AgainArmed));
    ToCallback(p, t);
    var held := {RR(5), CB};
    Pass(p, map[], 1, held, t[7..], CONN);
    Pass(p, map[], 1, held, t[10..], HS);
    var others: State := map[1 := Thread(held, t[13..])];
    var todo := ToCleaning(p, others, 2);
    s := others[2 := Thread({Z}, todo)];
    assert HeldBy(s, Z, 2) && HeldBy(s, CB, 1);
  }

  /** A read task whose callback sends gets past the test of the host's health. */
  lemma ToSending(p: Policy, send: Send) returns (t: seq<Act>)
    requires send.healthy && !send.blocking && (if send.callback then p.asks else p.tells)
    ensures Reachable(map[1 := Thread({RR(5), CB}, t)], p) && |t| > 3
    ensures send.callback ==> t[0] == Acquire(CB)
    ensures !send.callback ==>
              t[0] == Acquire(W) && t[1] == Access(W) && t[2] == Release(W) && t[3] == Acquire(WR(send.fd))
  {
    var own := {RR(5), CB};
    ReachNothing(p);
    var trace := SendingTrace(send);
    StartThread(p, map[], 1, ClientRead(5, true, [Callback([send], false)], AgainArmed));
    ToCallback(p, trace);
    Pass(p, map[], 1, own, trace[7..], HS);
    Advance(p, map[], 1, Thread(own, trace[10..]), Thread(own, trace[11..]));
    t := trace[11..];
  }

  /** A read task whose callback sends with a callback, or blocks, waits for the mutex it holds itself. */
  lemma AskingDeadlock(p: Policy) returns (s: State)
    requires p.asks
    ensures Reachable(s, p) && WaitsFor(s, 1, 1)
  {
    var t := ToSending(p, Send(6, true, true, true, false));
    s := map[1 := Thread({RR(5), CB}, t)];
    assert HeldBy(s, CB, 1);
  }

  /**
   A read task whose callback sends without a callback waits for the mutex of a writer; the write task that holds that
   one has failed and waits for `z_mutex`; the reaper holds that and waits for `call_backs_mutex`.
   */
  lemma TellingDeadlock(p: Policy) returns (s: State)
    requires p.tells
    ensures Reachable(s, p) && WaitsFor(s, 1, 2) && WaitsFor(s, 2, 3) && WaitsFor(s, 3, 1)
  {
    var t := ToSending(p, Send(6, true, false, true, false));
    var held := {RR(5), CB};
    Pass(p, map[], 1, held, t, W);
    var reader: State := map[1 := Thread(held, t[3..])];
    var todo := ToMarking(p, reader);
    var others := reader[2 := Thread({WR(6)}, todo)];
    var cleaning := ToCleaning(p, others, 3);
    s := others[3 := Thread({Z}, cleaning)];
    assert HeldBy(s, WR(6), 2) && HeldBy(s, Z, 3) && HeldBy(s, CB, 1);
  }

  /** A write task on descriptor 6 that has failed gets as far as the mark. */
  lemma ToMarking(p: Policy, others: State) returns (todo: seq<Act>)
    requires Reachable(others, p) && 2 !in others
    requires forall u, l :: u in others && l in others[u].held ==> l !in {W, WR(6), CONN, HS}
    ensures Reachable(others[2 := Thread({WR(6)}, todo)], p) && todo != [] && todo[0] == Acquire(Z)
  {
    var t := WriterTrace();
    StartThread(p, others, 2, ClientWrite(6, true, WriterClosed));
    Pass(p, others, 2, {}, t, W);
    Advance(p, others, 2, Thread({}, t[3..]), Thread({WR(6)}, t[4..]));
    Advance(p, others, 2, Thread({WR(6)}, t[4..]), Thread({WR(6)}, t[5..]));
    Pass(p, others, 2, {WR(6)}, t[5..], CONN);
    Pass(p, others, 2, {WR(6)}, t[8..], HS);
    todo := t[11..];
  }

  // ---------- What these threads do ----------

  const MARKING: seq<Act> :=
    [Acquire(CONN), Access(CONN), Release(CONN), Acquire(HS), Access(HS), Release(HS),
     Acquire(Z), Access(Z), Release(Z)]

  lemma OnceTrace(l: Lock)
    ensures Trace(Once(l)) == [Acquire(l), Access(l), Release(l)]
  {
    assert Trace(Touch(l)) == [Access(l)];
  }

  lemma MarkTrace()
    ensures Trace(MARK) == MARKING
  {
    OnceTrace(CONN);
    OnceTrace(HS);
    OnceTrace(Z);
    assert Trace(Then(Once(HS), Once(Z))) == Trace(Once(HS)) + Trace(Once(Z));
  }

  const CALLING: seq<Act> :=
    [Acquire(R), Access(R), Release(R), Acquire(RR(5)), Access(RR(5)), Acquire(CB), Access(CB)]
  const LEAVING: seq<Act> := [Release(CB), Acquire(E), Access(E), Release(E), Release(RR(5))]

  lemma RespondTrace(c: Callback)
    ensures Trace(Responses([c]))
            == [Acquire(CB), Access(CB)]
               + (Trace(Sends(c.sends)) + if c.throws then Trace(MARK) else []) + [Release(CB)]
  {
    var inner := Then(Sends(c.sends), if c.throws then MARK else Done);
    assert Trace(Done) == [];
    assert Trace(inner) == Trace(Sends(c.sends)) + if c.throws then Trace(MARK) else [];
    assert Trace(Then(Touch(CB), inner)) == [Access(CB)] + Trace(inner);
    assert [c][1..] == [] && Responses([]) == Done;
    assert Responses([c]) == Then(Respond(c), Done);
    assert Trace(Responses([c])) == Trace(Respond(c)) + [];
  }

  lemma ReadTrace(c: Callback)
    ensures Trace(Program(ClientRead(5, true, [c], AgainArmed)))
            == CALLING + (Trace(Sends(c.sends)) + if c.throws then Trace(MARK) else []) + LEAVING
  {
    var rest := With(RR(5), Then(Touch(RR(5)), Then(Responses([c]), Once(E))));
    assert Program(ClientRead(5, true, [c], AgainArmed)) == Then(Once(R), rest);
    var body := Trace(Sends(c.sends)) + if c.throws then Trace(MARK) else [];
    HandlingTrace(c);
    AfterOnce(R, rest, body);
  }

  lemma AfterOnce(l: Lock, rest: Prog, body: seq<Act>)
    requires Trace(rest) == [Acquire(RR(5)), Access(RR(5)), Acquire(CB), Access(CB)] + body + LEAVING
    ensures Trace(Then(Once(l), rest))
            == [Acquire(l), Access(l), Release(l), Acquire(RR(5)), Access(RR(5)), Acquire(CB), Access(CB)]
               + body + LEAVING
  {
    OnceTrace(l);
  }

  lemma HandlingTrace(c: Callback)
    ensures Trace(With(RR(5), Then(Touch(RR(5)), Then(Responses([c]), Once(E)))))
            == [Acquire(RR(5)), Access(RR(5)), Acquire(CB), Access(CB)]
               + (Trace(Sends(c.sends)) + if c.throws then Trace(MARK) else []) + LEAVING
  {
    OnceTrace(E);
    RespondTrace(c);
    var rest := Then(Responses([c]), Once(E));
    SectionTrace(RR(5), rest);
    var body := Trace(Sends(c.sends)) + if c.throws then Trace(MARK) else [];
    var enter := [Acquire(RR(5)), Access(RR(5))];
    Regroup(enter, [Acquire(CB), Access(CB)], body, [Release(CB)], Trace(Once(E)), [Release(RR(5))]);
    assert [Release(CB)] + Trace(Once(E)) + [Release(RR(5))] == LEAVING;
    assert enter + [Acquire(CB), Access(CB)] == [Acquire(RR(5)), Access(RR(5)), Acquire(CB), Access(CB)];
  }

  lemma Regroup<T>(a: seq<T>, b: seq<T>, body: seq<T>, c: seq<T>, d: seq<T>, e: seq<T>)
    ensures a + (b + body + c + d) + e == (a + b) + body + (c + d + e)
  {
  }

  lemma SectionTrace(l: Lock, body: Prog)
    ensures Trace(With(l, Then(Touch(l), body))) == [Acquire(l), Access(l)] + Trace(body) + [Release(l)]
  {
    assert Trace(Then(Touch(l), body)) == [Access(l)] + Trace(body);
  }

  lemma ThrowingTrace() returns (t: seq<Act>)
    ensures t == Trace(Program(ClientRead(5, true, [Callback([], true)], AgainArmed))) && |t| > 13
    ensures Begins(t, CALLING) && t[7] == Acquire(CONN) && t[8] == Access(CONN) && t[9] == Release(CONN)
    ensures t[10] == Acquire(HS) && t[11] == Access(HS) && t[12] == Release(HS) && t[13] == Acquire(Z)
  {
    var c := Callback([], true);
    t := Trace(Program(ClientRead(5, true, [c], AgainArmed)));
    ReadTrace(c);
    MarkTrace();
    assert Trace(Sends([])) == [];
    assert t == CALLING + MARKING + LEAVING;
  }

  lemma SendingTrace(send: Send) returns (t: seq<Act>)
    requires send.healthy && !send.blocking
    ensures t == Trace(Program(ClientRead(5, true, [Callback([send], false)], AgainArmed))) && |t| > 14
    ensures Begins(t, CALLING)
    ensures t[7] == Acquire(HS) && t[8] == Access(HS) && t[9] == Release(HS) && t[10] == Access(HS)
    ensures send.callback ==> t[11] == Acquire(CB)
    ensures !send.callback ==>
              t[11] == Acquire(W) && t[12] == Access(W) && t[13] == Release(W) && t[14] == Acquire(WR(send.fd))
  {
    var c := Callback([send], false);
    t := Trace(Program(ClientRead(5, true, [c], AgainArmed)));
    ReadTrace(c);
    SendTrace(send);
    assert t == CALLING + Trace(Sends([send])) + LEAVING;
  }

  lemma SendTrace(send: Send)
    requires send.healthy && !send.blocking
    ensures var body := Trace(Sends([send]));
            && |body| > 7
            && body[0] == Acquire(HS) && body[1] == Access(HS) && body[2] == Release(HS) && body[3] == Access(HS)
            && (send.callback ==> body[4] == Acquire(CB))
            && (!send.callback ==>
                  && body[4] == Acquire(W) && body[5] == Access(W) && body[6] == Release(W)
                  && body[7] == Acquire(WR(send.fd)))
  {
    OnceTrace(HS);
    var queue := Enqueue(send.fd, send.callback, send.valid);
    EnqueueTrace(send.fd, send.callback, send.valid);
    var go := Then(Touch(HS), queue);
    assert Trace(go) == [Access(HS)] + Trace(queue);
    var prog := ClientSendProg(send.fd, true, send.callback, send.valid);
    assert prog == Then(Once(HS), go);
    assert Trace(prog) == Trace(Once(HS)) + Trace(go);
    assert Trace(Done) == [];
    assert [send][1..] == [] && Sends([]) == Done;
    assert Sends([send]) == Then(Then(Done, Then(prog, Done)), Done);
    assert Trace(Then(prog, Done)) == Trace(prog) + [];
    assert Trace(Then(Done, Then(prog, Done))) == [] + Trace(Then(prog, Done));
    assert Trace(Sends([send])) == Trace(Then(Done, Then(prog, Done))) + [];
  }

  lemma EnqueueTrace(fd: Fd, callback: bool, valid: bool)
    ensures var body := Trace(Enqueue(fd, callback, valid));
            && |body| > 3
            && (callback ==> body[0] == Acquire(CB))
            && (!callback ==>
                  body[0] == Acquire(W) && body[1] == Access(W) && body[2] == Release(W) && body[3] == Acquire(WR(fd)))
  {
    OnceTrace(CB);
    OnceTrace(W);
    OnceTrace(WR(fd));
    assert Trace(Done) == [];
    var arm := Then(Once(WR(fd)), if valid then Once(E) else Done);
    assert Trace(arm)[0] == Acquire(WR(fd));
    var queue := Then(Once(W), arm);
    assert Trace(queue) == Trace(Once(W)) + Trace(arm);
    assert Enqueue(fd, callback, valid) == Then(if callback then Once(CB) else Done, queue);
  }

  lemma WriterTrace() returns (t: seq<Act>)
    ensures t == Trace(Program(ClientWrite(6, true, WriterClosed))) && |t| > 11
    ensures t[0] == Acquire(W) && t[1] == Access(W) && t[2] == Release(W)
    ensures t[3] == Acquire(WR(6)) && t[4] == Access(WR(6))
    ensures t[5] == Acquire(CONN) && t[6] == Access(CONN) && t[7] == Release(CONN)
    ensures t[8] == Acquire(HS) && t[9] == Access(HS) && t[10] == Release(HS) && t[11] == Acquire(Z)
  {
    t := Trace(Program(ClientWrite(6, true, WriterClosed)));
    OnceTrace(W);
    MarkTrace();
    var body := Then(Touch(WR(6)), MARK);
    assert Trace(body) == [Access(WR(6))] + MARKING;
    assert Trace(With(WR(6), body)) == [Acquire(WR(6))] + Trace(body) + [Release(WR(6))];
    assert t == Trace(Once(W)) + Trace(With(WR(6), body));
  }

  lemma ReaperTrace() returns (t: seq<Act>)
    ensures t == Trace(Program(ClientReap([true]))) && |t| > 9
    ensures t[0] == Acquire(Z) && t[1] == Access(Z)
    ensures t[2] == Acquire(CONN) && t[3] == Access(CONN) && t[4] == Release(CONN)
    ensures t[5] == Access(HS) && t[6] == Acquire(CONN) && t[7] == Access(CONN) && t[8] == Release(CONN)
    ensures t[9] == Acquire(CB)
  {
    t := Trace(Program(ClientReap([true])));
    var trace := CleanTrace();
    assert [true][1..] == [] && CleanClient([]) == Done;
    var first := Then(Then(Once(CONN), Touch(HS)), Then(CLEAN, Connect(true)));
    assert CleanClient([true]) == Then(Then(first, Done), Done);
    assert Trace(Then(first, Done)) == Trace(first) + [];
    assert Trace(CleanClient([true])) == Trace(Then(first, Done)) + [];
    var body := Then(Touch(Z), CleanClient([true]));
    assert Trace(body) == [Access(Z)] + Trace(CleanClient([true]));
    assert t == [Acquire(Z)] + Trace(body) + [Release(Z)];
  }

  lemma CleanTrace() returns (t: seq<Act>)
    ensures t == Trace(Then(Then(Once(CONN), Touch(HS)), Then(CLEAN, Connect(true)))) && |t| > 7
    ensures t[0] == Acquire(CONN) && t[1] == Access(CONN) && t[2] == Release(CONN) && t[3] == Access(HS)
    ensures t[4] == Acquire(CONN) && t[5] == Access(CONN) && t[6] == Release(CONN) && t[7] == Acquire(CB)
  {
    OnceTrace(CONN);
    OnceTrace(CB);
    var resources := Then(Once(CB), Then(Once(R), Then(Once(W), Once(E))));
    assert Trace(resources)[0] == Acquire(CB);
    assert Trace(CLEAN) == Trace(Once(CONN)) + Trace(resources);
    assert Trace(Then(CLEAN, Connect(true))) == Trace(CLEAN) + Trace(Connect(true));
    assert Trace(Then(Once(CONN), Touch(HS))) == Trace(Once(CONN)) + [Access(HS)];
    t := Trace(Then(Then(Once(CONN), Touch(HS)), Then(CLEAN, Connect(true))));
  }
}
