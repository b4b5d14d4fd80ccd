/**
 Which mutexes are ever taken while which others are held: the lock order of the server, and that of the client with and
 without response callbacks that throw or send.
 */
module LockOrder {

  import opened Locks

  predicate OfServer(op: Op) {
    op.ServerAdd? || op.ServerToggle? || op.ServerHangUp? || op.ServerSend? || op.ServerRead? || op.ServerWrite?
    || op.ServerReap?
  }

  /** The operations of a server, of a client whose callbacks are harmless, and of any client. */
  datatype Side = Server | Harmless | AnyClient {
    ghost predicate Has(op: Op) {
      (this == Server <==> OfServer(op)) && (this == Harmless ==> op.Within(HARMLESS))
    }
  }

  predicate Takes(p: Prog, l: Lock) {
    match p
    case Then(a, b) => Takes(a, l) || Takes(b, l)
    case With(k, body) => k == l || Takes(body, l)
    case _ => false
  }

  /** Somewhere in the program, b is taken while a is held. */
  predicate Nests(p: Prog, a: Lock, b: Lock) {
    match p
    case Then(x, y) => Nests(x, a, b) || Nests(y, a, b)
    case With(l, body) => (l == a && Takes(body, b)) || Nests(body, a, b)
    case _ => false
  }

  /** The lock order: what may be taken while a is held. */
  predicate Order(side: Side, a: Lock, b: Lock) {
    match a
    case RR(_) =>
      if side == Server then b in {W, E, Z} || b.WR?
      else b in {CB, E, CONN, HS, Z} || (side == AnyClient && (b == W || b.WR?))
    case WR(_) => b in {E, Z} || (side != Server && b in {CONN, HS})
    case Z => b in {R, W, E} || (side != Server && b in {CONN, CB, HS, EH})
    case EH => side != Server && b in {CONN, E, HS}
    case CB => (side != Server && b == HS) || (side == AnyClient && (b in {CB, W, E, CONN, Z} || b.WR?))
    case _ => false
  }

  // ---------- Nothing else is taken ----------

  /** The lock may be taken while these are held. */
  predicate Fits(side: Side, held: set<Lock>, l: Lock) {
    forall h :: h in held ==> Order(side, h, l)
  }

  predicate Obeys(side: Side, p: Prog, held: set<Lock>) {
    match p
    case Then(a, b) => Obeys(side, a, held) && Obeys(side, b, held)
    case With(l, body) => Fits(side, held, l) && Obeys(side, body, held + {l})
    case _ => true
  }

  lemma {:induction false} ObeysBounds(side: Side, p: Prog, held: set<Lock>, a: Lock, b: Lock)
    requires Obeys(side, p, held) && ((a in held && Takes(p, b)) || Nests(p, a, b))
    ensures Order(side, a, b)
  {
    match p
    case Then(x, y) =>
      if (a in held && Takes(x, b)) || Nests(x, a, b) {
        ObeysBounds(side, x, held, a, b);
      } else {
        ObeysBounds(side, y, held, a, b);
      }
    case With(l, body) =>
      if !(a in held && l == b) {
        ObeysBounds(side, body, held + {l}, a, b);
      }
    case _ => assert false;
  }

  lemma OnceObeys(side: Side, held: set<Lock>)
    ensures forall l :: Fits(side, held, l) ==> Obeys(side, Once(l), held)
  {
    forall l
      ensures Fits(side, held, l) ==> Obeys(side, Once(l), held)
    {
      assert Obeys(side, Touch(l), held + {l});
    }
  }

  lemma SectionObeys(side: Side, l: Lock, body: Prog)
    requires Obeys(side, body, {l})
    ensures Obeys(side, With(l, Then(Touch(l), body)), {})
  {
    assert {} + {l} == {l};
    assert Obeys(side, Touch(l), {l});
    assert Obeys(side, Then(Touch(l), body), {l});
  }

  lemma MarkObeys(side: Side, held: set<Lock>)
    requires forall l :: l in {CONN, HS, Z} ==> Fits(side, held, l)
    ensures Obeys(side, MARK, held)
  {
    OnceObeys(side, held);
    assert Obeys(side, Then(Once(HS), Once(Z)), held);
  }

  lemma SendObeys(r: Reply, held: set<Lock>)
    requires Fits(Server, held, W) && Fits(Server, held, WR(r.fd)) && Fits(Server, held, E)
    ensures Obeys(Server, SendTo(r), held)
  {
    OnceObeys(Server, held);
    assert Obeys(Server, Then(Once(WR(r.fd)), Once(E)), held);
  }

  lemma {:induction false} RepliesObey(rs: seq<Reply>, fd: Fd)
    ensures Obeys(Server, Replies(rs), {RR(fd)})
  {
    if rs != [] {
      RepliesObey(rs[1..], fd);
      SendObeys(rs[0], {RR(fd)});
    }
  }

  lemma {:induction false} CleanServerObeys(fds: seq<Fd>)
    ensures Obeys(Server, CleanServer(fds), {Z})
  {
    if fds != [] {
      CleanServerObeys(fds[1..]);
      OnceObeys(Server, {Z});
      assert Obeys(Server, Then(Once(W), Once(E)), {Z});
      assert Obeys(Server, Then(Once(R), Then(Once(W), Once(E))), {Z});
    }
  }

  lemma ServerObeys(op: Op)
    requires OfServer(op)
    ensures Obeys(Server, Program(op), {})
  {
    OnceObeys(Server, {});
    match op
    case ServerAdd => assert Obeys(Server, Then(Once(W), Once(E)), {});
    case ServerSend(r) => SendObeys(r, {});
    case ServerRead(fd, found, valid, replies, end) =>
      OnceObeys(Server, {RR(fd)});
      RepliesObey(replies, fd);
      var body := Then(Replies(replies), if end == SideClosed then Once(Z) else Once(E));
      assert Obeys(Server, body, {RR(fd)});
      SectionObeys(Server, RR(fd), if valid then body else Done);
    case ServerWrite(fd, found, valid, end) =>
      OnceObeys(Server, {WR(fd)});
      var body := if !valid || end == AllWritten then Done else if end == WriterClosed then Once(Z) else Once(E);
      assert Obeys(Server, body, {WR(fd)});
      SectionObeys(Server, WR(fd), body);
    case ServerReap(fds) =>
      CleanServerObeys(fds);
      SectionObeys(Server, Z, CleanServer(fds));
    case _ =>
  }

  lemma ConnectObeys(side: Side, success: bool, held: set<Lock>)
    requires forall l :: l in {CONN, E, HS} ==> Fits(side, held, l)
    ensures Obeys(side, Connect(success), held)
  {
    OnceObeys(side, held);
    assert Obeys(side, Then(Once(CONN), Once(E)), held);
  }

  lemma {:induction false} ConnectAllObeys(side: Side, successes: seq<bool>)
    ensures Obeys(side, ConnectAll(successes), {})
  {
    if successes != [] {
      ConnectAllObeys(side, successes[1..]);
      ConnectObeys(side, successes[0], {});
      OnceObeys(side, {});
    }
  }

  lemma {:induction false} RetryObeys(side: Side, successes: seq<bool>)
    requires side != Server
    ensures Obeys(side, RetryAll(successes), {EH})
  {
    if successes != [] {
      RetryObeys(side, successes[1..]);
      ConnectObeys(side, successes[0], {EH});
    }
  }

  lemma {:induction false} CleanClientObeys(side: Side, reconnected: seq<bool>)
    requires side != Server
    ensures Obeys(side, CleanClient(reconnected), {Z})
  {
    if reconnected != [] {
      CleanClientObeys(side, reconnected[1..]);
      CleanObeys(side, reconnected[0]);
      OnceObeys(side, {Z});
    }
  }

  lemma CleanObeys(side: Side, success: bool)
    requires side != Server
    ensures Obeys(side, Then(Then(Once(CONN), Touch(HS)), Then(CLEAN, Connect(success))), {Z})
  {
    OnceObeys(side, {Z});
    ConnectObeys(side, success, {Z});
    assert Obeys(side, Then(Once(CONN), Touch(HS)), {Z});
    assert Obeys(side, Then(Once(W), Once(E)), {Z});
    assert Obeys(side, Then(Once(R), Then(Once(W), Once(E))), {Z});
    assert Obeys(side, Then(Once(CB), Then(Once(R), Then(Once(W), Once(E)))), {Z});
    assert Obeys(side, Then(CLEAN, Connect(success)), {Z});
  }

  lemma ClientSendObeys(side: Side, fd: Fd, healthy: bool, callback: bool, valid: bool, held: set<Lock>)
    requires Fits(side, held, HS) && (healthy && callback ==> Fits(side, held, CB))
    requires healthy ==> Fits(side, held, W) && Fits(side, held, WR(fd)) && Fits(side, held, E)
    ensures Obeys(side, ClientSendProg(fd, healthy, callback, valid), held)
  {
    OnceObeys(side, held);
    if healthy {
      var arm := Then(Once(WR(fd)), if valid then Once(E) else Done);
      assert Obeys(side, arm, held);
      assert Obeys(side, Then(Once(W), arm), held);
      assert Obeys(side, Enqueue(fd, callback, valid), held);
      assert Obeys(side, Then(Touch(HS), Enqueue(fd, callback, valid)), held);
    }
  }

  lemma {:induction false} SendsObey(side: Side, sends: seq<Send>, held: set<Lock>)
    requires Fits(side, held, HS)
    requires forall i :: 0 <= i < |sends| ==> sends[i].healthy || sends[i].blocking ==>
               forall l: Lock :: l in {CB, W, E} || l.WR? ==> Fits(side, held, l)
    ensures Obeys(side, Sends(sends), held)
  {
    if sends != [] {
      var s := sends[0];
      SendsObey(side, sends[1..], held);
      OnceObeys(side, held);
      ClientSendObeys(side, s.fd, s.healthy, s.callback || s.blocking, s.valid, held);
      var send := ClientSendProg(s.fd, s.healthy, s.callback || s.blocking, s.valid);
      assert Obeys(side, Then(send, if s.blocking then Once(CB) else Done), held);
    }
  }

  lemma RespondObeys(side: Side, c: Callback, fd: Fd)
    requires side != Server && (side == Harmless ==> HARMLESS.Allows(c))
    ensures Obeys(side, Respond(c), {RR(fd)})
  {
    var held := {RR(fd)} + {CB};
    SendsObey(side, c.sends, held);
    if c.throws {
      MarkObeys(side, held);
    }
    var body := Then(Sends(c.sends), if c.throws then MARK else Done);
    assert Obeys(side, body, held);
    assert Obeys(side, Then(Touch(CB), body), held);
  }

  lemma {:induction false} ResponsesObey(side: Side, callbacks: seq<Callback>, fd: Fd)
    requires side != Server
    requires side == Harmless ==> forall i :: 0 <= i < |callbacks| ==> HARMLESS.Allows(callbacks[i])
    ensures Obeys(side, Responses(callbacks), {RR(fd)})
  {
    if callbacks != [] {
      ResponsesObey(side, callbacks[1..], fd);
      RespondObeys(side, callbacks[0], fd);
    }
  }

  lemma ClientObeys(side: Side, op: Op)
    requires side != Server && side.Has(op)
    ensures Obeys(side, Program(op), {})
  {
    OnceObeys(side, {});
    match op
    case ClientConnect(connected) => ConnectAllObeys(side, connected);
    case ClientHangUp => MarkObeys(side, {});
    case ClientSend(fd, healthy, callback, valid) => ClientSendObeys(side, fd, healthy, callback, valid, {});
    case ClientBlockingSend(fd, healthy, valid) =>
      ClientSendObeys(side, fd, healthy, true, valid, {});
      assert Obeys(side, Then(ClientSendProg(fd, healthy, true, valid), Once(CB)), {});
    case ClientRead(fd, valid, callbacks, end) => ClientReadObeys(side, op);
    case ClientWrite(fd, valid, end) =>
      OnceObeys(side, {WR(fd)});
      MarkObeys(side, {WR(fd)});
      var body := if !valid || end == AllWritten then Done else if end == WriterClosed then MARK else Once(E);
      assert Obeys(side, body, {WR(fd)});
      SectionObeys(side, WR(fd), body);
    case ClientReap(reconnected) =>
      CleanClientObeys(side, reconnected);
      SectionObeys(side, Z, CleanClient(reconnected));
    case ClientRetry(reconnected) =>
      RetryObeys(side, reconnected);
      SectionObeys(side, EH, RetryAll(reconnected));
    case _ =>
  }

  lemma ClientReadObeys(side: Side, op: Op)
    requires side != Server && op.ClientRead? && side.Has(op)
    ensures Obeys(side, Program(op), {})
  {
    OnceObeys(side, {});
    if op.valid {
      OnceObeys(side, {RR(op.fd)});
      MarkObeys(side, {RR(op.fd)});
      ResponsesObey(side, op.callbacks, op.fd);
      assert Obeys(side, Then(Responses(op.callbacks), if op.rend == SideClosed then MARK else Once(E)), {RR(op.fd)});
    }
    var body := Then(Responses(op.callbacks), if op.rend == SideClosed then MARK else Once(E));
    SectionObeys(side, RR(op.fd), if op.valid then body else Done);
  }

  // ---------- All of this is taken ----------

  lemma SectionNests(l: Lock, body: Prog)
    ensures forall b :: Takes(body, b) ==> Nests(With(l, Then(Touch(l), body)), l, b)
  {
    assert forall b :: Takes(body, b) ==> Takes(Then(Touch(l), body), b);
  }

  lemma MarkTakes()
    ensures Takes(MARK, CONN) && Takes(MARK, HS) && Takes(MARK, Z)
  {
    assert Takes(Then(Once(HS), Once(Z)), Z);
    assert Takes(Then(Once(HS), Once(Z)), HS);
  }

  /** An operation of a server that takes b while it holds a. */
  lemma ServerWitness(a: Lock, b: Lock) returns (op: Op)
    requires Order(Server, a, b)
    ensures OfServer(op) && Nests(Program(op), a, b)
  {
    match a
    case RR(fd) =>
      var reply := Reply(if b.WR? then b.fd else 0, true);
      op := ServerRead(fd, true, true, [reply], if b == Z then SideClosed else AgainArmed);
      var end := if b == Z then Once(Z) else Once(E);
      assert Takes(Then(Once(WR(reply.fd)), Once(E)), WR(reply.fd));
      assert b == W || b.WR? ==> Takes(SendTo(reply), b);
      assert b == W || b.WR? ==> Takes(Replies([reply]), b);
      var body := Then(Replies([reply]), end);
      assert Takes(body, b);
      SectionNests(RR(fd), body);
    case WR(fd) =>
      op := ServerWrite(fd, true, true, if b == Z then WriterClosed else WriteArmed);
      SectionNests(WR(fd), if b == Z then Once(Z) else Once(E));
    case Z =>
      op := ServerReap([0]);
      assert Takes(Then(Once(W), Once(E)), b) <==> b in {W, E};
      assert Takes(Then(Once(R), Then(Once(W), Once(E))), b);
      assert Takes(CleanServer([0]), b);
      SectionNests(Z, CleanServer([0]));
    case _ => assert false;
  }

  /** A client's read task that takes b while it holds the mutex of the reader. */
  lemma ReadWitness(side: Side, fd: Fd, b: Lock) returns (op: Op)
    requires side != Server && Order(side, RR(fd), b)
    ensures side.Has(op) && Nests(Program(op), RR(fd), b)
  {
    MarkTakes();
    var to := if b.WR? then b.fd else 0;
    var sends := if b == W || b.WR? then [Send(to, true, false, true, false)] else [];
    var c := Callback(sends, false);
    op := ClientRead(fd, true, [c], if b in {CONN, HS, Z} then SideClosed else AgainArmed);
    if b == W || b.WR? {
      TellingTakes(sends[0], b);
      RespondTakes(c, b);
    }
    assert Responses([c]) == Then(Respond(c), Responses([c][1..]));
    assert b == CB || b == W || b.WR? ==> Takes(Responses([c]), b);
    var body := Then(Responses([c]), if b in {CONN, HS, Z} then MARK else Once(E));
    assert Takes(body, b);
    SectionNests(RR(fd), body);
  }

  lemma RespondTakes(c: Callback, b: Lock)
    requires Takes(Sends(c.sends), b) || (c.throws && Takes(MARK, b))
    ensures Takes(Respond(c), b) && Nests(Respond(c), CB, b)
  {
    var body := Then(Sends(c.sends), if c.throws then MARK else Done);
    assert Takes(body, b);
    assert Takes(Then(Touch(CB), body), b);
  }

  lemma TellingTakes(s: Send, b: Lock)
    requires s.healthy && !s.blocking && s.valid
    requires b in {HS, W, E} || b == WR(s.fd) || (b == CB && s.callback)
    ensures Takes(Sends([s]), b)
  {
    var arm := Then(Once(WR(s.fd)), Once(E));
    var queue := Then(Once(W), arm);
    assert b == E || b == WR(s.fd) ==> Takes(arm, b);
    assert b in {W, E} || b == WR(s.fd) ==> Takes(queue, b);
    assert b != HS ==> Takes(Enqueue(s.fd, s.callback, true), b);
    assert b != HS ==> Takes(Then(Touch(HS), Enqueue(s.fd, s.callback, true)), b);
    var send := ClientSendProg(s.fd, true, s.callback, true);
    assert Takes(send, b);
    assert Takes(Then(send, Done), b);
    assert Sends([s]) == Then(Then(Done, Then(send, Done)), Sends([s][1..]));
    assert Takes(Then(Done, Then(send, Done)), b);
  }

  /** A client's read task that takes b while it holds `call_backs_mutex`. */
  lemma CallWitness(side: Side, b: Lock) returns (op: Op)
    requires side != Server && Order(side, CB, b)
    ensures side.Has(op) && Nests(Program(op), CB, b)
  {
    MarkTakes();
    var to := if b.WR? then b.fd else 0;
    var sends := if b == HS then [Send(to, false, false, false, false)]
                 else if b in {CONN, Z} then [] else [Send(to, true, b == CB, true, false)];
    var c := Callback(sends, b in {CONN, Z});
    op := ClientRead(5, true, [c], AgainArmed);
    if b == HS {
      StoppedTakes(sends[0]);
    } else if b != CONN && b != Z {
      TellingTakes(sends[0], b);
    }
    RespondTakes(c, b);
    ReadNests(c, b);
  }

  lemma ReadNests(c: Callback, b: Lock)
    requires Nests(Respond(c), CB, b)
    ensures Nests(Program(ClientRead(5, true, [c], AgainArmed)), CB, b)
  {
    assert Responses([c]) == Then(Respond(c), Responses([c][1..]));
    assert Nests(Responses([c]), CB, b);
    var body := Then(Responses([c]), Once(E));
    assert Nests(body, CB, b);
    assert Nests(Then(Touch(RR(5)), body), CB, b);
  }

  // The send stops at the health of the host.
  lemma StoppedTakes(s: Send)
    requires !s.healthy && !s.blocking
    ensures Takes(Sends([s]), HS)
  {
    var send := ClientSendProg(s.fd, false, s.callback, s.valid);
    assert Takes(send, HS);
    assert Takes(Then(send, Done), HS);
    assert Takes(Then(Done, Then(send, Done)), HS);
  }

  /** A client's reaper that takes b while it holds `z_mutex`. */
  lemma ReapWitness(side: Side, b: Lock) returns (op: Op)
    requires side != Server && Order(side, Z, b)
    ensures side.Has(op) && Nests(Program(op), Z, b)
  {
    var success := b != EH;
    op := ClientReap([success]);
    if success {
      CleanTakes(success, b);
    }
    var first := Then(Then(Once(CONN), Touch(HS)), Then(CLEAN, Connect(success)));
    assert Takes(Then(first, if success then Done else Once(EH)), b);
    assert Takes(CleanClient([success]), b);
    SectionNests(Z, CleanClient([success]));
  }

  lemma CleanTakes(success: bool, b: Lock)
    requires b in {CONN, CB, R, W, E, HS}
    ensures Takes(Then(Then(Once(CONN), Touch(HS)), Then(CLEAN, Connect(success))), b)
  {
    assert b in {W, E} ==> Takes(Then(Once(W), Once(E)), b);
    assert b in {R, W, E} ==> Takes(Then(Once(R), Then(Once(W), Once(E))), b);
    assert b in {CB, R, W, E} ==> Takes(Then(Once(CB), Then(Once(R), Then(Once(W), Once(E)))), b);
    assert b != HS ==> Takes(CLEAN, b);
    assert b == HS ==> Takes(Connect(success), b);
    assert Takes(Then(CLEAN, Connect(success)), b);
  }

  /** An operation of a client that takes b while it holds a. */
  lemma ClientWitness(side: Side, a: Lock, b: Lock) returns (op: Op)
    requires side != Server && Order(side, a, b)
    ensures side.Has(op) && Nests(Program(op), a, b)
  {
    MarkTakes();
    match a
    case RR(fd) => op := ReadWitness(side, fd, b);
    case WR(fd) =>
      op := ClientWrite(fd, true, if b == E then WriteArmed else WriterClosed);
      SectionNests(WR(fd), if b == E then Once(E) else MARK);
    case Z => op := ReapWitness(side, b);
    case EH =>
      op := ClientRetry([true]);
      assert Takes(Then(Once(CONN), Once(E)), b) <==> b in {CONN, E};
      assert Takes(Connect(true), b);
      assert Takes(RetryAll([true]), b);
      SectionNests(EH, RetryAll([true]));
    case CB => op := CallWitness(side, b);
    case _ => assert false;
  }

  ghost predicate Witness(side: Side, op: Op, a: Lock, b: Lock) {
    side.Has(op) && Nests(Program(op), a, b)
  }

  /**
   Some operation takes b while it holds a, exactly if the lock order says so: in a server, in a client whose response
   callbacks are harmless, and in any client.
   */
  lemma OrderExactly(side: Side, a: Lock, b: Lock)
    ensures (exists op :: Witness(side, op, a, b)) <==> Order(side, a, b)
  {
    if op :| Witness(side, op, a, b) {
      if side == Server {
        ServerObeys(op);
      } else {
        ClientObeys(side, op);
      }
      ObeysBounds(side, Program(op), {}, a, b);
    }
    if Order(side, a, b) {
      var op;
      if side == Server {
        op := ServerWitness(a, b);
      } else {
        op := ClientWitness(side, a, b);
      }
      assert Witness(side, op, a, b);
    }
  }
}
