/**
 Which of the things that mutexes are there to protect are used without them, and by which operations.
 */
module DataRaces {

  import opened Locks

  // ---------- What each operation uses ----------

  /**
   Everything is used under its mutex, but for the status of hosts; and that is used without `hs_mutex` by exactly those
   operations that read the descriptor of a host out of it.
   */
  lemma AllGuarded(op: Op)
    ensures Guarded(Program(op), {}, {HS})
    ensures Guarded(Program(op), {}, {}) <==> !op.Peeks()
  {
    if op.ClientRead? {
      ClientReadGuarded(op);
    } else if op.ClientReap? {
      CleanClientGuarded(op.reconnected, {Z});
      SectionGuarded(Z, CleanClient(op.reconnected));
    } else if op.ClientSend? {
      ClientSendGuarded(op.fd, op.healthy, op.callback, op.valid, {});
    } else if op.ClientBlockingSend? {
      ClientSendGuarded(op.fd, op.healthy, true, op.valid, {});
    } else {
      forall ex: set<Lock>
        ensures Guarded(Program(op), {}, ex)
      {
        OthersGuarded(op, ex);
      }
    }
  }

  // A section of a mutex, which begins with a look at what it protects.
  lemma SectionGuarded(l: Lock, body: Prog)
    ensures forall ex :: Guarded(With(l, Then(Touch(l), body)), {}, ex) <==> Guarded(body, {l}, ex)
  {
    forall ex: set<Lock>
      ensures Guarded(With(l, Then(Touch(l), body)), {}, ex) <==> Guarded(body, {l}, ex)
    {
      assert {} + {l} == {l};
      assert Guarded(Touch(l), {l}, ex);
      assert Guarded(Then(Touch(l), body), {l}, ex) <==> Guarded(body, {l}, ex);
    }
  }

  lemma OnceGuarded(held: set<Lock>, ex: set<Lock>)
    ensures forall l :: Guarded(Once(l), held, ex)
  {
    forall l
      ensures Guarded(Once(l), held, ex)
    {
      assert Guarded(Touch(l), held + {l}, ex);
    }
  }

  lemma MarkGuarded(held: set<Lock>, ex: set<Lock>)
    ensures Guarded(MARK, held, ex)
  {
    OnceGuarded(held, ex);
    assert Guarded(Then(Once(HS), Once(Z)), held, ex);
  }

  lemma OthersGuarded(op: Op, ex: set<Lock>)
    requires !op.ClientRead? && !op.ClientReap? && !op.ClientSend? && !op.ClientBlockingSend?
    ensures Guarded(Program(op), {}, ex)
  {
    OnceGuarded({}, ex);
    match op
    case ServerAdd => assert Guarded(Then(Once(W), Once(E)), {}, ex);
    case ServerSend(r) => SendGuarded(r, {}, ex);
    case ServerRead(fd, found, valid, replies, end) =>
      OnceGuarded({RR(fd)}, ex);
      RepliesGuarded(replies, {RR(fd)}, ex);
      var body := Then(Replies(replies), if end == SideClosed then Once(Z) else Once(E));
      assert Guarded(body, {RR(fd)}, ex);
      SectionGuarded(RR(fd), if valid then body else Done);
    case ServerWrite(fd, found, valid, end) => WriteGuarded(fd, valid, end, Once(Z), ex);
    case ServerReap(fds) =>
      CleanServerGuarded(fds, {Z}, ex);
      SectionGuarded(Z, CleanServer(fds));
    case ClientConnect(connected) => ConnectAllGuarded(connected, ex);
    case ClientHangUp => MarkGuarded({}, ex);
    case ClientWrite(fd, valid, end) => WriteGuarded(fd, valid, end, MARK, ex);
    case ClientRetry(reconnected) =>
      RetryGuarded(reconnected, {EH}, ex);
      SectionGuarded(EH, RetryAll(reconnected));
    case _ =>
  }

  lemma WriteGuarded(fd: Fd, valid: bool, end: WriteEnd, close: Prog, ex: set<Lock>)
    requires close == Once(Z) || close == MARK
    ensures var body := if !valid || end == AllWritten then Done else if end == WriterClosed then close else Once(E);
            Guarded(With(WR(fd), Then(Touch(WR(fd)), body)), {}, ex)
  {
    OnceGuarded({WR(fd)}, ex);
    MarkGuarded({WR(fd)}, ex);
    var body := if !valid || end == AllWritten then Done else if end == WriterClosed then close else Once(E);
    assert Guarded(body, {WR(fd)}, ex);
    SectionGuarded(WR(fd), body);
  }

  lemma SendGuarded(r: Reply, held: set<Lock>, ex: set<Lock>)
    ensures Guarded(SendTo(r), held, ex)
  {
    OnceGuarded(held, ex);
    assert Guarded(Then(Once(WR(r.fd)), Once(E)), held, ex);
  }

  lemma {:induction false} RepliesGuarded(rs: seq<Reply>, held: set<Lock>, ex: set<Lock>)
    ensures Guarded(Replies(rs), held, ex)
  {
    if rs != [] {
      RepliesGuarded(rs[1..], held, ex);
      SendGuarded(rs[0], held, ex);
    }
  }

  lemma {:induction false} CleanServerGuarded(fds: seq<Fd>, held: set<Lock>, ex: set<Lock>)
    ensures Guarded(CleanServer(fds), held, ex)
  {
    if fds != [] {
      CleanServerGuarded(fds[1..], held, ex);
      OnceGuarded(held, ex);
      assert Guarded(Then(Once(W), Once(E)), held, ex);
      assert Guarded(Then(Once(R), Then(Once(W), Once(E))), held, ex);
    }
  }

  lemma ConnectGuarded(success: bool, held: set<Lock>, ex: set<Lock>)
    ensures Guarded(Connect(success), held, ex)
  {
    OnceGuarded(held, ex);
    assert Guarded(Then(Once(CONN), Once(E)), held, ex);
  }

  lemma {:induction false} ConnectAllGuarded(successes: seq<bool>, ex: set<Lock>)
    ensures Guarded(ConnectAll(successes), {}, ex)
  {
    if successes != [] {
      ConnectAllGuarded(successes[1..], ex);
      ConnectGuarded(successes[0], {}, ex);
      OnceGuarded({}, ex);
    }
  }

  lemma {:induction false} RetryGuarded(successes: seq<bool>, held: set<Lock>, ex: set<Lock>)
    ensures Guarded(RetryAll(successes), held, ex)
  {
    if successes != [] {
      RetryGuarded(successes[1..], held, ex);
      ConnectGuarded(successes[0], held, ex);
    }
  }

  lemma {:induction false} CleanClientGuarded(reconnected: seq<bool>, held: set<Lock>)
    requires HS !in held
    ensures Guarded(CleanClient(reconnected), held, {HS})
    ensures Guarded(CleanClient(reconnected), held, {}) <==> reconnected == []
  {
    if reconnected != [] {
      CleanClientGuarded(reconnected[1..], held);
      CleanGuarded(reconnected[0], held);
      OnceGuarded(held, {HS});
      var first := Then(Then(Once(CONN), Touch(HS)), Then(CLEAN, Connect(reconnected[0])));
      var push := if reconnected[0] then Done else Once(EH);
      assert Guarded(Then(first, push), held, {HS});
      assert !Guarded(Then(first, push), held, {});
    }
  }

  lemma CleanGuarded(success: bool, held: set<Lock>)
    requires HS !in held
    ensures var first := Then(Then(Once(CONN), Touch(HS)), Then(CLEAN, Connect(success)));
            Guarded(first, held, {HS}) && !Guarded(first, held, {})
  {
    OnceGuarded(held, {HS});
    ConnectGuarded(success, held, {HS});
    assert Guarded(Then(Once(CONN), Touch(HS)), held, {HS});
    assert Guarded(Then(Once(W), Once(E)), held, {HS});
    assert Guarded(Then(Once(R), Then(Once(W), Once(E))), held, {HS});
    assert Guarded(Then(Once(CB), Then(Once(R), Then(Once(W), Once(E)))), held, {HS});
    assert Guarded(Then(CLEAN, Connect(success)), held, {HS});
    assert !Guarded(Touch(HS), held, {});
    assert !Guarded(Then(Once(CONN), Touch(HS)), held, {});
  }

  lemma ClientSendGuarded(fd: Fd, healthy: bool, callback: bool, valid: bool, held: set<Lock>)
    requires HS !in held
    ensures Guarded(ClientSendProg(fd, healthy, callback, valid), held, {HS})
    ensures Guarded(ClientSendProg(fd, healthy, callback, valid), held, {}) <==> !healthy
    ensures Guarded(Then(ClientSendProg(fd, healthy, callback, valid), Once(CB)), held, {HS})
  {
    OnceGuarded(held, {HS});
    OnceGuarded(held, {});
    var arm := Then(Once(WR(fd)), if valid then Once(E) else Done);
    assert Guarded(arm, held, {HS});
    assert Guarded(Then(Once(W), arm), held, {HS});
    var go := Then(Touch(HS), Enqueue(fd, callback, valid));
    assert Guarded(Enqueue(fd, callback, valid), held, {HS});
    assert Guarded(go, held, {HS});
    assert !Guarded(Touch(HS), held, {});
    assert !Guarded(go, held, {});
  }

  lemma {:induction false} SendsGuarded(sends: seq<Send>, held: set<Lock>)
    requires HS !in held
    ensures Guarded(Sends(sends), held, {HS})
    ensures Guarded(Sends(sends), held, {}) <==> forall i :: 0 <= i < |sends| ==> !sends[i].Peeks()
  {
    if sends != [] {
      var s, rest := sends[0], sends[1..];
      SendsGuarded(rest, held);
      SendingGuarded(s, held);
      assert forall i :: 0 < i < |sends| ==> sends[i] == rest[i - 1];
      assert forall i :: 0 <= i < |rest| ==> rest[i] == sends[i + 1];
    }
  }

  lemma SendingGuarded(s: Send, held: set<Lock>)
    requires HS !in held
    ensures var send := ClientSendProg(s.fd, s.healthy, s.callback || s.blocking, s.valid);
            var wait := if s.blocking then Once(CB) else Done;
            var first := Then(if s.blocking then Touch(HS) else Done, Then(send, wait));
            Guarded(first, held, {HS}) && (Guarded(first, held, {}) <==> !s.Peeks())
  {
    ClientSendGuarded(s.fd, s.healthy, s.callback || s.blocking, s.valid, held);
    var send := ClientSendProg(s.fd, s.healthy, s.callback || s.blocking, s.valid);
    assert Guarded(Then(send, Done), held, {HS});
    assert Guarded(Then(send, Done), held, {}) <==> !s.healthy;
    assert !Guarded(Touch(HS), held, {});
  }

  lemma {:induction false} ResponsesGuarded(callbacks: seq<Callback>, held: set<Lock>)
    requires HS !in held
    ensures Guarded(Responses(callbacks), held, {HS})
    ensures Guarded(Responses(callbacks), held, {}) <==>
              forall i :: 0 <= i < |callbacks| ==> !callbacks[i].Peeks()
  {
    if callbacks != [] {
      var rest := callbacks[1..];
      ResponsesGuarded(rest, held);
      RespondGuarded(callbacks[0], held);
      assert forall i :: 0 < i < |callbacks| ==> callbacks[i] == rest[i - 1];
      assert forall i :: 0 <= i < |rest| ==> rest[i] == callbacks[i + 1];
    }
  }

  lemma RespondGuarded(c: Callback, held: set<Lock>)
    requires HS !in held
    ensures Guarded(Respond(c), held, {HS})
    ensures Guarded(Respond(c), held, {}) <==> !c.Peeks()
  {
    var inside := held + {CB};
    SendsGuarded(c.sends, inside);
    var body := Then(Sends(c.sends), if c.throws then MARK else Done);
    forall ex: set<Lock>
      ensures Guarded(Then(Touch(CB), body), inside, ex) <==> Guarded(Sends(c.sends), inside, ex)
    {
      MarkGuarded(inside, ex);
      assert Guarded(body, inside, ex) <==> Guarded(Sends(c.sends), inside, ex);
    }
  }

  lemma ClientReadGuarded(op: Op)
    requires op.ClientRead?
    ensures Guarded(Program(op), {}, {HS})
    ensures Guarded(Program(op), {}, {}) <==> !op.Peeks()
  {
    var held := {RR(op.fd)};
    ResponsesGuarded(op.callbacks, held);
    var body := Then(Responses(op.callbacks), if op.rend == SideClosed then MARK else Once(E));
    forall ex: set<Lock>
      ensures Guarded(Once(R), {}, ex)
      ensures Guarded(body, held, ex) <==> Guarded(Responses(op.callbacks), held, ex)
    {
      OnceGuarded({}, ex);
      OnceGuarded(held, ex);
      MarkGuarded(held, ex);
    }
    SectionGuarded(RR(op.fd), if op.valid then body else Done);
  }

  // ---------- Whole runs ----------

  /** The actions, done while `held` is held, use only what that protects, or the status of hosts. */
  ghost predicate Safe(todo: seq<Act>, held: set<Lock>) {
    if todo == [] then true
    else match todo[0]
      case Acquire(l) => l in held || Safe(todo[1..], held + {l})
      case Release(l) => Safe(todo[1..], held - {l})
      case Access(l) => (l in held || l == HS) && Safe(todo[1..], held)
  }

  lemma {:induction false} GuardedIsSafe(p: Prog, held: set<Lock>, rest: seq<Act>)
    requires Guarded(p, held, {HS}) && Safe(rest, held)
    ensures Safe(Trace(p) + rest, held)
  {
    match p
    case Done => assert [] + rest == rest;
    case Then(a, b) =>
      GuardedIsSafe(b, held, rest);
      GuardedIsSafe(a, held, Trace(b) + rest);
      assert Trace(a) + (Trace(b) + rest) == Trace(a) + Trace(b) + rest;
    case With(l, body) =>
      if l !in held {
        assert ([Release(l)] + rest)[1..] == rest && held + {l} - {l} == held;
        GuardedIsSafe(body, held + {l}, [Release(l)] + rest);
      }
      var inner := Trace(body) + ([Release(l)] + rest);
      assert [Acquire(l)] + Trace(body) + [Release(l)] + rest == [Acquire(l)] + inner;
      assert ([Acquire(l)] + inner)[1..] == inner;
    case Touch(l) => assert ([Access(l)] + rest)[1..] == rest;
  }

  /** Each thread is safe, and no mutex has two holders; whatever callbacks do. */
  ghost predicate SafeState(s: State) {
    && (forall t :: t in s ==> Safe(s[t].todo, s[t].held))
    && (forall t, u, l :: HeldBy(s, l, t) && HeldBy(s, l, u) ==> t == u)
  }

  lemma StepIsSafe(s: State, l: Label)
    requires SafeState(s) && Enabled(s, l)
    ensures SafeState(Apply(s, l))
  {
    if l.Start? {
      AllGuarded(l.op);
      GuardedIsSafe(Program(l.op), {}, []);
      assert Trace(Program(l.op)) + [] == Trace(Program(l.op));
    }
    var s' := Apply(s, l);
    assert forall k, u :: u != l.t ==> (HeldBy(s', k, u) <==> HeldBy(s, k, u));
    assert forall k :: HeldBy(s', k, l.t) ==> HeldBy(s, k, l.t) || (l.Step? && s[l.t].todo[0] == Acquire(k));
    assert l.Step? && s[l.t].todo[0].Acquire? ==> !HeldBy(s, s[l.t].todo[0].l, l.t);
  }

  lemma {:induction false} RunIsSafe(ss: seq<State>, ls: seq<Label>, i: nat)
    requires IsRun(ss, ls) && i <= |ls|
    ensures SafeState(ss[i])
  {
    if i > 0 {
      RunIsSafe(ss, ls, i - 1);
      StepIsSafe(ss[i - 1], ls[i - 1]);
    }
  }

  /** The thread is about to use what the mutex protects. */
  ghost predicate About(s: State, t: Tid, l: Lock) {
    t in s && s[t].todo != [] && s[t].todo[0] == Access(l)
  }

  ghost predicate Race(s: State, t: Tid, u: Tid, l: Lock) {
    t != u && About(s, t, l) && About(s, u, l)
  }

  /**
   Two threads can be about to use the same thing at once exactly if it is the status of hosts, whatever response
   callbacks are allowed to do.
   */
  lemma RacesExactly(p: Policy, l: Lock)
    ensures (exists s, t, u :: Reachable(s, p) && Race(s, t, u, l)) <==> l == HS
  {
    if l == HS {
      var s := StatusRace(p);
      assert Race(s, 1, 2, HS);
    }
    forall s, t, u | Reachable(s, p) && Race(s, t, u, l)
      ensures l == HS
    {
      var ss: seq<State>, ls: seq<Label> :| RunTo(ss, ls, p, s);
      RunIsSafe(ss, ls, |ls|);
      assert l != HS ==> HeldBy(s, l, t) && HeldBy(s, l, u);
    }
  }

  /** A sender reads the descriptor of its host while another thread clears the health of a host. */
  lemma StatusRace(p: Policy) returns (s: State)
    ensures Reachable(s, p) && About(s, 1, HS) && About(s, 2, HS)
  {
    var todo := ToPeek(p);
    var others: State := map[1 := Thread({}, todo)];
    MarkTrace();
    StartThread(p, others, 2, ClientHangUp);
    Pass(p, others, 2, {}, MARKING, CONN);
    Advance(p, others, 2, Thread({}, MARKING[3..]), Thread({HS}, MARKING[4..]));
    s := others[2 := Thread({HS}, MARKING[4..])];
  }

  lemma ToPeek(p: Policy) returns (todo: seq<Act>)
    ensures Reachable(map[1 := Thread({}, todo)], p) && todo != [] && todo[0] == Access(HS)
  {
    ReachNothing(p);
    var t := PeekTrace();
    StartThread(p, map[], 1, ClientSend(6, true, false, true));
    Pass(p, map[], 1, {}, t, HS);
    todo := t[3..];
  }

  lemma PeekTrace() returns (t: seq<Act>)
    ensures t == Trace(Program(ClientSend(6, true, false, true))) && |t| > 3
    ensures t[0] == Acquire(HS) && t[1] == Access(HS) && t[2] == Release(HS) && t[3] == Access(HS)
  {
    t := Trace(Program(ClientSend(6, true, false, true)));
    OnceTrace(HS);
    var queue := Enqueue(6, false, true);
    var go := Then(Touch(HS), queue);
    assert Trace(go) == [Access(HS)] + Trace(queue);
    assert Program(ClientSend(6, true, false, true)) == Then(Once(HS), go);
    assert t == Trace(Once(HS)) + Trace(go);
  }
}
