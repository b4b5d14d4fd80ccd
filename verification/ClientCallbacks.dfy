/**
 The client's table of response callbacks, as steps of any number of threads that send, of the read tasks that deal
 with responses, and of the reaper. A stretch of code that holds `call_backs_mutex` is one step, but for the response,
 which runs the callback of the caller while it holds the mutex. Which responses arrive, on which descriptor, and how
 the descriptors of the hosts change, is left open. Every call has a uuid of its own.
 */
module ClientCallbacks {
  import opened Bytes
  import opened Hosts

  type Uuid = int

  datatype Key = Key(fd: Fd, uuid: Uuid)

  datatype Phase = Chosen | Healthy | Aimed | Registered | Sent | Waiting | Removed | Returned(ok: bool)

  /** How a callback leaves the table. */
  datatype Exit = ByResponse | ByRemoval | ByReap

  // A blocking call reads the descriptor of its host twice: fd1 is what it removes its callback from in the end, fd2
  // what it registers it under.
  datatype Call = Call(
    blocking: bool, host: Host, fd1: Fd, fd2: Fd, phase: Phase, registered: bool,
    appended: Option<bool>,   // whether the writer was valid, once it has been asked
    success: bool,            // the variable that the call returns; the callback of a blocking call sets it
    runs: nat,                // how often the callback has been called
    exits: seq<Exit>)

  // A read task that has found a callback; it holds the mutex.
  datatype Response = Response(key: Key, ran: bool)

  datatype State = State(
    status: map<Host, Status>,
    calls: map<Uuid, Call>,
    callBacks: set<Key>,
    holder: Option<Response>)

  datatype Label =
    | Record(h: Host, st: Status)               // the host is connected, fails to connect, or is marked
    | Choose(u: Uuid, h: Host, blocking: bool)
    | Check(u: Uuid)
    | Aim(u: Uuid)
    | Register(u: Uuid)
    | Append(u: Uuid, valid: bool)
    | Assign(u: Uuid)                           // the result of the sending is assigned to success
    | Remove(u: Uuid)                           // a blocking call has its response, or its time is up
    | Return(u: Uuid)
    | Lookup(key: Key)
    | Run
    | Finish
    | Reap(fd: Fd)

  // What `h_status[h]` yields, also for a host without an entry.
  function StatusOf(s: State, h: Host): Status {
    if h in s.status then s.status[h] else Status(false, 0)
  }

  predicate At(s: State, u: Uuid, p: Phase) {
    u in s.calls && s.calls[u].phase == p
  }

  predicate Enabled(s: State, l: Label) {
    match l
    case Record(_, _) => true
    case Choose(u, _, _) => u !in s.calls
    case Check(u) => At(s, u, Chosen)
    case Aim(u) => At(s, u, Healthy)
    case Register(u) => At(s, u, Aimed) && s.holder == None
    case Append(u, _) => At(s, u, Registered)
    case Assign(u) => At(s, u, Sent)
    case Remove(u) => At(s, u, Waiting) && s.calls[u].blocking && s.holder == None
    case Return(u) => At(s, u, Removed) || (At(s, u, Waiting) && !s.calls[u].blocking)
    case Lookup(_) => s.holder == None
    case Run => s.holder.Some? && !s.holder.value.ran
    case Finish => s.holder.Some? && s.holder.value.ran
    case Reap(_) => s.holder == None
  }

  function Put(s: State, u: Uuid, c: Call): State {
    s.(calls := s.calls[u := c])
  }

  /** The calls after the given keys, which are those of these calls, have left the table. */
  function Left(s: State, keys: set<Key>, e: Exit): map<Uuid, Call> {
    map u | u in s.calls ::
      var c := s.calls[u];
      if Key(c.fd2, u) in keys && Key(c.fd2, u) in s.callBacks then c.(exits := c.exits + [e]) else c
  }

  function KeysOf(s: State, fd: Fd): (r: set<Key>)
    ensures forall k :: k in r <==> k in s.callBacks && k.fd == fd
  {
    set k | k in s.callBacks && k.fd == fd
  }

  function Erased(s: State, keys: set<Key>, e: Exit): State {
    s.(callBacks := s.callBacks - keys, calls := Left(s, keys, e))
  }

  // The callback of a call is called; that of a blocking call notes its success.
  function Answered(c: Call): Call {
    c.(runs := c.runs + 1, success := c.success || c.blocking)
  }

  function Apply(s: State, l: Label): State
    requires Enabled(s, l)
  {
    match l
    case Record(h, st) => s.(status := s.status[h := st])
    case Choose(u, h, blocking) =>
      var fd := StatusOf(s, h).sfd;
      Put(s, u, Call(blocking, h, fd, fd, Chosen, false, None, false, 0, []))
    case Check(u) =>
      var healthy := StatusOf(s, s.calls[u].host).healthy;
      Put(s, u, s.calls[u].(phase := if healthy then Healthy else Sent))
    case Aim(u) => Put(s, u, s.calls[u].(fd2 := StatusOf(s, s.calls[u].host).sfd, phase := Aimed))
    case Register(u) =>
      Put(s, u, s.calls[u].(phase := Registered, registered := true))
        .(callBacks := s.callBacks + {Key(s.calls[u].fd2, u)})
    case Append(u, valid) => Put(s, u, s.calls[u].(phase := Sent, appended := Some(valid)))
    case Assign(u) => Put(s, u, s.calls[u].(phase := Waiting, success := s.calls[u].appended == Some(true)))
    case Remove(u) =>
      var s' := Erased(s, {Key(s.calls[u].fd1, u)}, ByRemoval);
      Put(s', u, s'.calls[u].(phase := Removed))
    case Return(u) => Put(s, u, s.calls[u].(phase := Returned(s.calls[u].success)))
    case Lookup(key) => if key in s.callBacks then s.(holder := Some(Response(key, false))) else s
    case Run =>
      var k := s.holder.value.key;
      var s' := s.(holder := Some(Response(k, true)));
      if k.uuid in s.calls then Put(s', k.uuid, Answered(s.calls[k.uuid])) else s'
    case Finish => Erased(s, {s.holder.value.key}, ByResponse).(holder := None)
    case Reap(fd) => Erased(s, KeysOf(s, fd), ByReap)
  }

  // ---------- The invariant ----------

  predicate InTable(s: State, u: Uuid) {
    u in s.calls && Key(s.calls[u].fd2, u) in s.callBacks
  }

  predicate Running(s: State, u: Uuid) {
    u in s.calls && s.holder == Some(Response(Key(s.calls[u].fd2, u), true))
  }

  predicate Past(c: Call) {
    c.phase == Removed || c.phase.Returned?
  }

  /**
   A callback is in the table from its registration until it leaves, in one of three ways; it has run once if it left
   through a response or such a response is being dealt with, and has not run otherwise.
   */
  ghost predicate CallOk(s: State, u: Uuid) {
    u in s.calls ==>
      var c := s.calls[u];
      && |c.exits| <= 1
      && (InTable(s, u) <==> c.registered && c.exits == [])
      && (!c.registered ==> c.exits == [] && !c.success && c.phase != Returned(true))
      && (c.phase in {Chosen, Healthy, Aimed} ==> !c.registered)
      && (c.phase == Registered ==> c.registered) && (c.phase == Removed ==> c.blocking)
      && (c.appended.Some? <==> c.registered && c.phase != Registered)
      && c.runs == (if c.exits == [ByResponse] || Running(s, u) then 1 else 0)
      && (c.exits == [ByRemoval] ==> c.blocking && Past(c) && c.fd1 == c.fd2)
      && (c.blocking && Past(c) && c.fd1 == c.fd2 ==> !InTable(s, u))
  }

  ghost predicate TableOk(s: State) {
    && (forall k :: k in s.callBacks ==> k.uuid in s.calls && k.fd == s.calls[k.uuid].fd2)
    && (s.holder.Some? ==> s.holder.value.key in s.callBacks)
  }

  ghost predicate Inv(s: State) {
    TableOk(s) && forall u :: CallOk(s, u)
  }

  lemma KeepsCall(s: State, l: Label, u: Uuid)
    requires TableOk(s) && CallOk(s, u) && Enabled(s, l)
    ensures CallOk(Apply(s, l), u)
  {
    if l.Remove? {
      RemoveKeepsCall(s, l, u);
    } else if l.Finish? || l.Reap? {
      ErasureKeepsCall(s, l, u);
    } else if l.Lookup? || l.Run? {
      ResponseKeepsCall(s, l, Apply(s, l), u);
    } else {
      SenderKeepsCall(s, l, Apply(s, l), u);
    }
  }

  lemma ResponseKeepsCall(s: State, l: Label, s': State, u: Uuid)
    requires TableOk(s) && CallOk(s, u) && Enabled(s, l) && s' == Apply(s, l) && (l.Lookup? || l.Run?)
    ensures CallOk(s', u)
  {
  }

  lemma SenderKeepsCall(s: State, l: Label, s': State, u: Uuid)
    requires TableOk(s) && CallOk(s, u) && Enabled(s, l) && s' == Apply(s, l)
    requires !l.Remove? && !l.Finish? && !l.Reap? && !l.Lookup? && !l.Run?
    ensures CallOk(s', u)
  {
  }

  lemma ErasedExits(s: State, keys: set<Key>, e: Exit, u: Uuid)
    requires CallOk(s, u) && u in s.calls
    ensures var c := s.calls[u];
            Erased(s, keys, e).calls[u] == if InTable(s, u) && Key(c.fd2, u) in keys then c.(exits := [e]) else c
  {
    assert [] + [e] == [e];
  }

  lemma RemoveKeepsCall(s: State, l: Label, u: Uuid)
    requires TableOk(s) && CallOk(s, u) && Enabled(s, l) && l.Remove?
    ensures CallOk(Apply(s, l), u)
  {
    if u in s.calls {
      ErasedExits(s, {Key(s.calls[l.u].fd1, l.u)}, ByRemoval, u);
    }
  }

  lemma ErasureKeepsCall(s: State, l: Label, u: Uuid)
    requires TableOk(s) && CallOk(s, u) && Enabled(s, l) && (l.Finish? || l.Reap?)
    ensures CallOk(Apply(s, l), u)
  {
    if u in s.calls {
      if l.Finish? {
        ErasedExits(s, {s.holder.value.key}, ByResponse, u);
      } else {
        ErasedExits(s, KeysOf(s, l.fd), ByReap, u);
      }
    }
  }

  lemma KeepsTable(s: State, l: Label)
    requires Inv(s) && Enabled(s, l)
    ensures TableOk(Apply(s, l))
  {
    if l.Aim? || l.Register? {
      assert CallOk(s, l.u);
    }
  }

  lemma StepKeeps(s: State, l: Label)
    requires Inv(s) && Enabled(s, l)
    ensures Inv(Apply(s, l))
  {
    KeepsTable(s, l);
    forall u
      ensures CallOk(Apply(s, l), u)
    {
      assert CallOk(s, u);
      KeepsCall(s, l, u);
    }
  }

  // ---------- Whole runs ----------

  const EMPTY := State(map[], map[], {}, None)

  ghost predicate IsRun(ss: seq<State>, ls: seq<Label>) {
    && |ss| == |ls| + 1 && ss[0] == EMPTY
    && forall i :: 0 <= i < |ls| ==> Enabled(ss[i], ls[i]) && ss[i + 1] == Apply(ss[i], ls[i])
  }

  lemma {:induction false} RunKeeps(ss: seq<State>, ls: seq<Label>, i: nat)
    requires IsRun(ss, ls) && i <= |ls|
    ensures Inv(ss[i])
  {
    if i > 0 {
      RunKeeps(ss, ls, i - 1);
      StepKeeps(ss[i - 1], ls[i - 1]);
    }
  }

  /** A call keeps its counts of runs and exits, or adds to them; what it has chosen and registered stays. */
  ghost predicate Grows(c: Call, d: Call) {
    && d.runs >= c.runs && IsPrefix(c.exits, d.exits) && (c.registered ==> d.registered && d.fd2 == c.fd2)
    && d.blocking == c.blocking && d.host == c.host && d.fd1 == c.fd1 && (c.appended.Some? ==> d.appended == c.appended)
    && (c.phase.Returned? ==> d.phase == c.phase && d.fd2 == c.fd2)
  }

  lemma StepGrows(s: State, l: Label, u: Uuid)
    requires Inv(s) && Enabled(s, l) && u in s.calls
    ensures u in Apply(s, l).calls && Grows(s.calls[u], Apply(s, l).calls[u])
  {
    assert CallOk(s, u);
    if l.Remove? {
      ErasedExits(s, {Key(s.calls[l.u].fd1, l.u)}, ByRemoval, u);
    } else if l.Finish? {
      ErasedExits(s, {s.holder.value.key}, ByResponse, u);
    } else if l.Reap? {
      ErasedExits(s, KeysOf(s, l.fd), ByReap, u);
    } else {
      OtherStepGrows(s, l, Apply(s, l), u);
    }
  }

  lemma OtherStepGrows(s: State, l: Label, s': State, u: Uuid)
    requires CallOk(s, u) && Enabled(s, l) && s' == Apply(s, l) && u in s.calls
    requires !l.Remove? && !l.Finish? && !l.Reap?
    ensures u in s'.calls && Grows(s.calls[u], s'.calls[u])
  {
  }

  lemma GrowsOn(c: Call, d: Call, e: Call)
    requires Grows(c, d) && Grows(d, e)
    ensures Grows(c, e)
  {
    assert c.exits == d.exits[..|c.exits|] == e.exits[..|d.exits|][..|c.exits|];
  }

  lemma {:induction false} RunGrows(ss: seq<State>, ls: seq<Label>, i: nat, j: nat, u: Uuid)
    requires IsRun(ss, ls) && i <= j <= |ls| && u in ss[i].calls
    ensures u in ss[j].calls && Grows(ss[i].calls[u], ss[j].calls[u])
    decreases j
  {
    if i < j {
      RunGrows(ss, ls, i, j - 1, u);
      RunKeeps(ss, ls, j - 1);
      StepGrows(ss[j - 1], ls[j - 1], u);
      GrowsOn(ss[i].calls[u], ss[j - 1].calls[u], ss[j].calls[u]);
    }
  }

  /** The step calls the callback of u. */
  ghost predicate Calls(s: State, l: Label, u: Uuid) {
    l == Run && Enabled(s, l) && s.holder.value.key.uuid == u
  }

  /** A callback is called at most once in a run. */
  lemma RunsAtMostOnce(ss: seq<State>, ls: seq<Label>, i: nat, j: nat, u: Uuid)
    requires IsRun(ss, ls) && i <= j < |ls| && Calls(ss[i], ls[i], u) && Calls(ss[j], ls[j], u)
    ensures i == j
  {
    RunKeeps(ss, ls, i);
    RunKeeps(ss, ls, j);
    assert CallOk(ss[j], u);
    if i < j {
      RunGrows(ss, ls, i + 1, j, u);
    }
  }

  /**
   From its registration on, a callback is in the table or has left it in exactly one way; once it has left it never
   comes back, and never leaves in another way.
   */
  lemma LeavesOnce(ss: seq<State>, ls: seq<Label>, i: nat, j: nat, u: Uuid)
    requires IsRun(ss, ls) && i <= j <= |ls| && u in ss[i].calls && ss[i].calls[u].registered
    ensures InTable(ss[i], u) <==> ss[i].calls[u].exits == []
    ensures |ss[i].calls[u].exits| <= 1
    ensures u in ss[j].calls
    ensures !InTable(ss[i], u) ==> !InTable(ss[j], u) && ss[j].calls[u].exits == ss[i].calls[u].exits
    ensures ss[i].calls[u].runs == 1 <==> ss[i].calls[u].exits == [ByResponse] || Running(ss[i], u)
  {
    RunKeeps(ss, ls, i);
    RunKeeps(ss, ls, j);
    RunGrows(ss, ls, i, j, u);
    assert CallOk(ss[i], u) && CallOk(ss[j], u);
  }

  // ---------- What results and exits mean, in terms of the steps of the run ----------

  /** The step takes the callback out of the table in this way. */
  ghost predicate TakenBy(s: State, l: Label, u: Uuid, e: Exit) {
    && InTable(s, u)
    && var c := s.calls[u];
       match e
       case ByResponse => l.Finish? && s.holder.Some? && s.holder.value.key.uuid == u
       case ByRemoval => l == Remove(u) && c.blocking && c.fd1 == c.fd2
       case ByReap => l == Reap(c.fd2)
  }

  ghost predicate WasTakenBy(ss: seq<State>, ls: seq<Label>, i: nat, u: Uuid, e: Exit)
    requires |ss| > |ls| >= i
  {
    exists k :: 0 <= k < i && TakenBy(ss[k], ls[k], u, e)
  }

  ghost predicate WasCalled(ss: seq<State>, ls: seq<Label>, i: nat, u: Uuid)
    requires |ss| > |ls| >= i
  {
    exists k :: 0 <= k < i && Calls(ss[k], ls[k], u)
  }

  /** The call came to the writer, and found it valid or not. */
  ghost predicate WasAppended(ls: seq<Label>, i: nat, u: Uuid, valid: bool)
    requires |ls| >= i
  {
    exists k :: 0 <= k < i && ls[k] == Append(u, valid)
  }

  lemma ExitStep(s: State, l: Label, s': State, u: Uuid, e: Exit)
    requires Inv(s) && Enabled(s, l) && s' == Apply(s, l)
    ensures u in s.calls ==> u in s'.calls
    ensures u in s'.calls ==>
              (e in s'.calls[u].exits <==> (u in s.calls && e in s.calls[u].exits) || TakenBy(s, l, u, e))
  {
    if u in s.calls {
      assert CallOk(s, u);
      if l.Remove? {
        ErasedExits(s, {Key(s.calls[l.u].fd1, l.u)}, ByRemoval, u);
      } else if l.Finish? {
        ErasedExits(s, {s.holder.value.key}, ByResponse, u);
      } else if l.Reap? {
        ErasedExits(s, KeysOf(s, l.fd), ByReap, u);
      }
    }
  }

  lemma TakenBefore(ss: seq<State>, ls: seq<Label>, j: nat, u: Uuid, e: Exit)
    requires |ss| > |ls| > j
    ensures WasTakenBy(ss, ls, j + 1, u, e) <==> WasTakenBy(ss, ls, j, u, e) || TakenBy(ss[j], ls[j], u, e)
  {
    if k :| 0 <= k < j && TakenBy(ss[k], ls[k], u, e) {
      assert WasTakenBy(ss, ls, j + 1, u, e);
    }
  }

  lemma {:induction false} ExitMeans(ss: seq<State>, ls: seq<Label>, i: nat, u: Uuid, e: Exit)
    requires IsRun(ss, ls) && i <= |ls|
    ensures u in ss[i].calls ==> (e in ss[i].calls[u].exits <==> WasTakenBy(ss, ls, i, u, e))
    ensures u !in ss[i].calls ==> !WasTakenBy(ss, ls, i, u, e)
  {
    if i > 0 {
      var j := i - 1;
      ExitMeans(ss, ls, j, u, e);
      TakenBefore(ss, ls, j, u, e);
      RunKeeps(ss, ls, j);
      ExitStep(ss[j], ls[j], ss[i], u, e);
    }
  }

  lemma ResultStep(s: State, l: Label, s': State, u: Uuid, ok: bool)
    requires Inv(s) && Enabled(s, l) && s' == Apply(s, l)
    ensures Settled(s', u, ok) <==> Settled(s, u, ok) || l == Append(u, ok)
  {
    if u in s.calls {
      assert CallOk(s, u);
      StepGrows(s, l, u);
    }
  }

  /** The call has registered its callback, and found the writer valid or not. */
  ghost predicate Settled(s: State, u: Uuid, ok: bool) {
    u in s.calls && s.calls[u].appended == Some(ok)
  }

  lemma {:induction false} ResultMeans(ss: seq<State>, ls: seq<Label>, i: nat, u: Uuid, ok: bool)
    requires IsRun(ss, ls) && i <= |ls|
    ensures Settled(ss[i], u, ok) <==> WasAppended(ls, i, u, ok)
  {
    if i > 0 {
      ResultMeans(ss, ls, i - 1, u, ok);
      RunKeeps(ss, ls, i - 1);
      ResultStep(ss[i - 1], ls[i - 1], ss[i], u, ok);
    }
  }

  lemma CalledStep(s: State, l: Label, s': State, u: Uuid)
    requires Inv(s) && Enabled(s, l) && s' == Apply(s, l)
    ensures RunsOf(s', u) > 0 <==> RunsOf(s, u) > 0 || Calls(s, l, u)
  {
    if u in s.calls {
      assert CallOk(s, u);
      StepGrows(s, l, u);
    }
  }

  function RunsOf(s: State, u: Uuid): nat {
    if u in s.calls then s.calls[u].runs else 0
  }

  lemma {:induction false} CalledMeans(ss: seq<State>, ls: seq<Label>, i: nat, u: Uuid)
    requires IsRun(ss, ls) && i <= |ls|
    ensures RunsOf(ss[i], u) > 0 <==> WasCalled(ss, ls, i, u)
  {
    if i == 0 {
      assert RunsOf(ss[0], u) == 0;
    } else {
      var j := i - 1;
      CalledMeans(ss, ls, j, u);
      RunKeeps(ss, ls, j);
      CalledStep(ss[j], ls[j], ss[j + 1], u);
    }
  }

  /** A response that carries the id of u has come on the descriptor under which its callback is in the table. */
  predicate Found(s: State, l: Label, u: Uuid) {
    l.Lookup? && l.key in s.callBacks && l.key.uuid == u
  }

  ghost predicate WasFound(ss: seq<State>, ls: seq<Label>, i: nat, u: Uuid)
    requires |ss| > |ls| >= i
  {
    exists k :: 0 <= k < i && Found(ss[k], ls[k], u)
  }

  /** A read task is dealing with a response to u. */
  predicate InResponse(s: State, u: Uuid) {
    s.holder.Some? && s.holder.value.key.uuid == u
  }

  lemma FoundStep(s: State, l: Label, s': State, u: Uuid)
    requires Inv(s) && Enabled(s, l) && s' == Apply(s, l)
    ensures RunsOf(s', u) > 0 || InResponse(s', u) <==> RunsOf(s, u) > 0 || InResponse(s, u) || Found(s, l, u)
  {
    CalledStep(s, l, s', u);
    assert CallOk(s, u);
  }

  /**
   A callback has been called, or is about to be by a read task that holds the mutex, exactly if a response has found it
   in the table.
   */
  lemma {:induction false} CalledIfFound(ss: seq<State>, ls: seq<Label>, i: nat, u: Uuid)
    requires IsRun(ss, ls) && i <= |ls|
    ensures WasCalled(ss, ls, i, u) || InResponse(ss[i], u) <==> WasFound(ss, ls, i, u)
  {
    CalledMeans(ss, ls, i, u);
    if i > 0 {
      var j := i - 1;
      CalledIfFound(ss, ls, j, u);
      CalledMeans(ss, ls, j, u);
      RunKeeps(ss, ls, j);
      FoundStep(ss[j], ls[j], ss[i], u);
      assert WasFound(ss, ls, i, u) <==> WasFound(ss, ls, j, u) || Found(ss[j], ls[j], u);
    }
  }

  /** The callback was called after the result of the sending had been assigned, and before the call returned. */
  ghost predicate AnswersLate(s: State, l: Label, u: Uuid) {
    Calls(s, l, u) && u in s.calls && s.calls[u].phase in {Waiting, Removed}
  }

  ghost predicate WasAnsweredLate(ss: seq<State>, ls: seq<Label>, i: nat, u: Uuid)
    requires |ss| > |ls| >= i
  {
    exists k :: 0 <= k < i && AnswersLate(ss[k], ls[k], u)
  }

  /** The variable, from the assignment until it is returned, and then what was returned. */
  function Result(c: Call): bool {
    if c.phase.Returned? then c.phase.ok else c.success
  }

  predicate Assigned(s: State, u: Uuid) {
    u in s.calls && s.calls[u].blocking && (s.calls[u].phase == Waiting || Past(s.calls[u]))
  }

  lemma ResultOfStep(s: State, l: Label, s': State, u: Uuid)
    requires Inv(s) && Enabled(s, l) && s' == Apply(s, l)
    ensures Assigned(s, u) ==> Assigned(s', u) && (Result(s'.calls[u]) <==> Result(s.calls[u]) || AnswersLate(s, l, u))
    ensures Assigned(s', u) && !Assigned(s, u) ==> Result(s'.calls[u]) == Settled(s', u, true)
    ensures !Assigned(s, u) && (u in s.calls ==> s.calls[u].blocking) ==> !AnswersLate(s, l, u)
  {
    if u in s.calls {
      assert CallOk(s, u);
      if l.Remove? {
        ErasedExits(s, {Key(s.calls[l.u].fd1, l.u)}, ByRemoval, u);
      } else if l.Finish? {
        ErasedExits(s, {s.holder.value.key}, ByResponse, u);
      } else if l.Reap? {
        ErasedExits(s, KeysOf(s, l.fd), ByReap, u);
      }
    }
  }

  lemma {:induction false} ResultIs(ss: seq<State>, ls: seq<Label>, i: nat, u: Uuid)
    requires IsRun(ss, ls) && i <= |ls| && (u in ss[i].calls ==> ss[i].calls[u].blocking)
    ensures Assigned(ss[i], u) ==>
              (Result(ss[i].calls[u]) <==> WasAppended(ls, i, u, true) || WasAnsweredLate(ss, ls, i, u))
    ensures !Assigned(ss[i], u) ==> !WasAnsweredLate(ss, ls, i, u)
  {
    if i > 0 {
      var j := i - 1;
      RunKeeps(ss, ls, j);
      if u in ss[j].calls {
        StepGrows(ss[j], ls[j], u);
      }
      ResultIs(ss, ls, j, u);
      ResultOfStep(ss[j], ls[j], ss[i], u);
      ResultMeans(ss, ls, j, u, true);
      ResultMeans(ss, ls, i, u, true);
    }
  }

  /**
   What the result of a blocking call means: not that it was answered, but that its message was appended to a valid
   writer, or that its callback was called before it returned all the same. A call that came to the writer and read one
   descriptor was left without an answer exactly if it gave up waiting and took its callback out of the table, or the
   reaper did.
   */
  lemma BlockingResult(ss: seq<State>, ls: seq<Label>, i: nat, u: Uuid)
    requires IsRun(ss, ls) && i <= |ls| && u in ss[i].calls
    requires ss[i].calls[u].blocking && ss[i].calls[u].phase.Returned?
    ensures ss[i].calls[u].phase.ok <==> WasAppended(ls, i, u, true) || WasAnsweredLate(ss, ls, i, u)
    ensures ss[i].calls[u].registered && ss[i].calls[u].fd1 == ss[i].calls[u].fd2 ==>
              (!WasCalled(ss, ls, i, u)
               <==> WasTakenBy(ss, ls, i, u, ByRemoval) || WasTakenBy(ss, ls, i, u, ByReap))
  {
    var c := ss[i].calls[u];
    RunKeeps(ss, ls, i);
    ResultIs(ss, ls, i, u);
    CalledMeans(ss, ls, i, u);
    ExitMeans(ss, ls, i, u, ByRemoval);
    ExitMeans(ss, ls, i, u, ByReap);
    assert CallOk(ss[i], u);
    OneExit(c.exits);
  }

  lemma OneExit(exits: seq<Exit>)
    requires |exits| <= 1
    ensures exits == [] || exits == [ByResponse] || exits == [ByRemoval] || exits == [ByReap]
  {
    if exits != [] {
      var e := exits[0];
      assert exits == [e];
      assert e == ByResponse || e == ByRemoval || e == ByReap;
    }
  }

  // Nobody but the call itself sets the result of a call that does not block.
  ghost predicate OwnOk(s: State, u: Uuid) {
    u in s.calls && !s.calls[u].blocking && (s.calls[u].phase == Waiting || s.calls[u].phase.Returned?) ==>
      Result(s.calls[u]) == (s.calls[u].appended == Some(true))
  }

  lemma OwnStep(s: State, l: Label, s': State, u: Uuid)
    requires Inv(s) && Enabled(s, l) && s' == Apply(s, l) && OwnOk(s, u)
    ensures OwnOk(s', u)
  {
    assert CallOk(s, u);
  }

  lemma {:induction false} OwnResult(ss: seq<State>, ls: seq<Label>, i: nat, u: Uuid)
    requires IsRun(ss, ls) && i <= |ls|
    ensures OwnOk(ss[i], u)
  {
    if i > 0 {
      OwnResult(ss, ls, i - 1, u);
      RunKeeps(ss, ls, i - 1);
      OwnStep(ss[i - 1], ls[i - 1], ss[i], u);
    }
  }

  /**
   The callback of a call that does not block, once registered, is gone exactly if a response or the reaper has taken
   it; this is so in particular when the writer refused the message and the call returned false.
   */
  lemma RefusedStays(ss: seq<State>, ls: seq<Label>, i: nat, u: Uuid)
    requires IsRun(ss, ls) && i <= |ls| && u in ss[i].calls && !ss[i].calls[u].blocking && ss[i].calls[u].registered
    ensures !InTable(ss[i], u) <==> WasTakenBy(ss, ls, i, u, ByResponse) || WasTakenBy(ss, ls, i, u, ByReap)
    ensures ss[i].calls[u].phase.Returned? ==> (!ss[i].calls[u].phase.ok <==> WasAppended(ls, i, u, false))
  {
    RunKeeps(ss, ls, i);
    ResultMeans(ss, ls, i, u, false);
    OwnResult(ss, ls, i, u);
    ExitMeans(ss, ls, i, u, ByResponse);
    ExitMeans(ss, ls, i, u, ByReap);
    assert CallOk(ss[i], u);
    var c := ss[i].calls[u];
    OneExit(c.exits);
    assert OwnOk(ss[i], u);
    if c.appended.Some? {
      assert c.appended == if c.appended.value then Some(true) else Some(false);
    }
  }

  /** At the end of the run, the callback of a blocking call that has already returned is called. */
  ghost predicate Dangling(ss: seq<State>, ls: seq<Label>, u: Uuid, fd1: Fd, fd2: Fd) {
    && IsRun(ss, ls) && Calls(ss[|ls|], Run, u) && u in ss[|ls|].calls
    && var c := ss[|ls|].calls[u]; c.blocking && c.phase.Returned? && c.fd1 == fd1 && c.fd2 == fd2
  }

  /**
   The callback of a blocking call can be called after the call has returned if and only if the two descriptors that
   the call read differ.
   */
  lemma DanglesExactly(u: Uuid, h: Host, fd1: Fd, fd2: Fd)
    ensures (exists ss, ls :: Dangling(ss, ls, u, fd1, fd2)) <==> fd1 != fd2
  {
    if fd1 != fd2 {
      var ss, ls := Reconnected(u, h, fd1, fd2);
      assert Dangling(ss, ls, u, fd1, fd2);
    }
    forall ss, ls | Dangling(ss, ls, u, fd1, fd2)
      ensures fd1 != fd2
    {
      RunKeeps(ss, ls, |ls|);
      assert CallOk(ss[|ls|], u);
    }
  }

  /** While the callback of a blocking call that read one descriptor runs or is about to run, it has not returned. */
  lemma CallerStillWaits(ss: seq<State>, ls: seq<Label>, i: nat, u: Uuid)
    requires IsRun(ss, ls) && i <= |ls| && u in ss[i].calls
    requires ss[i].holder.Some? && ss[i].holder.value.key.uuid == u
    requires ss[i].calls[u].blocking && ss[i].calls[u].fd1 == ss[i].calls[u].fd2
    ensures !Past(ss[i].calls[u])
  {
    RunKeeps(ss, ls, i);
    assert CallOk(ss[i], u);
  }

  // ---------- The health of the host ----------

  /** What was recorded of the host last, in the first i steps. */
  function Recorded(ls: seq<Label>, i: nat, h: Host): Status
    requires i <= |ls|
  {
    if i == 0 then Status(false, 0)
    else if Records(ls[i - 1], h) then ls[i - 1].st
    else Recorded(ls, i - 1, h)
  }

  lemma {:induction false} StatusIs(ss: seq<State>, ls: seq<Label>, i: nat, h: Host)
    requires IsRun(ss, ls) && i <= |ls|
    ensures StatusOf(ss[i], h) == Recorded(ls, i, h)
  {
    if i > 0 {
      StatusIs(ss, ls, i - 1, h);
    }
  }

  /** The call has passed the test of its host's health. */
  predicate PastHealth(c: Call) {
    c.phase == Healthy || c.phase == Aimed || c.registered
  }

  lemma HealthStep(s: State, l: Label, s': State, u: Uuid)
    requires Inv(s) && Enabled(s, l) && s' == Apply(s, l) && u in s.calls
    ensures u in s'.calls
    ensures l == Check(u) ==> (PastHealth(s'.calls[u]) <==> StatusOf(s, s.calls[u].host).healthy)
    ensures l != Check(u) ==> (PastHealth(s'.calls[u]) <==> PastHealth(s.calls[u]))
    ensures s.calls[u].phase != Chosen ==> s'.calls[u].phase != Chosen && l != Check(u)
    ensures l == Check(u) ==> s'.calls[u].phase != Chosen
  {
    assert CallOk(s, u);
    StepGrows(s, l, u);
  }

  /** What the test finds decides once and for all whether the call goes on. */
  lemma {:induction false} TestDecides(ss: seq<State>, ls: seq<Label>, k: nat, i: nat, u: Uuid)
    requires IsRun(ss, ls) && k < i <= |ls| && ls[k] == Check(u)
    ensures u in ss[k].calls && u in ss[i].calls && ss[i].calls[u].host == ss[k].calls[u].host
    ensures ss[i].calls[u].phase != Chosen
    ensures PastHealth(ss[i].calls[u]) <==> Recorded(ls, k, ss[i].calls[u].host).healthy
    decreases i
  {
    var j := i - 1;
    RunKeeps(ss, ls, j);
    if j > k {
      TestDecides(ss, ls, k, j, u);
    } else {
      StatusIs(ss, ls, k, ss[k].calls[u].host);
    }
    HealthStep(ss[j], ls[j], ss[i], u);
    StepGrows(ss[j], ls[j], u);
  }

  lemma {:induction false} WhenChecked(ss: seq<State>, ls: seq<Label>, i: nat, u: Uuid) returns (k: nat)
    requires IsRun(ss, ls) && i <= |ls| && u in ss[i].calls && ss[i].calls[u].phase != Chosen
    ensures k < i && ls[k] == Check(u)
  {
    var j := i - 1;
    RunKeeps(ss, ls, j);
    if ls[j] == Check(u) {
      k := j;
    } else {
      assert CallOk(ss[j], u);
      k := WhenChecked(ss, ls, j, u);
    }
  }

  /**
   A call registers its callback, or comes to the writer, only if its host was last recorded as healthy when it was
   tested; otherwise it does neither, its callback is never called, and what it returns is false.
   */
  lemma HealthDecides(ss: seq<State>, ls: seq<Label>, i: nat, u: Uuid) returns (k: nat)
    requires IsRun(ss, ls) && i <= |ls| && u in ss[i].calls && ss[i].calls[u].phase != Chosen
    ensures k < i && ls[k] == Check(u)
    ensures var c, healthy := ss[i].calls[u], Recorded(ls, k, ss[i].calls[u].host).healthy;
            && (c.registered ==> healthy)
            && (WasAppended(ls, i, u, true) || WasAppended(ls, i, u, false) ==> healthy)
            && (!healthy ==> !c.registered && !WasCalled(ss, ls, i, u) && !InTable(ss[i], u))
            && (!healthy && c.phase.Returned? ==> c.phase == Returned(false))
            && (healthy && c.phase.Returned? ==> c.registered)
  {
    k := WhenChecked(ss, ls, i, u);
    TestDecides(ss, ls, k, i, u);
    RunKeeps(ss, ls, i);
    ResultMeans(ss, ls, i, u, true);
    ResultMeans(ss, ls, i, u, false);
    CalledMeans(ss, ls, i, u);
    assert CallOk(ss[i], u);
  }

  /** No call is ever stuck: it can go on, or the response that holds the mutex it waits for can. */
  lemma CallGoesOn(ss: seq<State>, ls: seq<Label>, i: nat, u: Uuid) returns (l: Label)
    requires IsRun(ss, ls) && i <= |ls| && u in ss[i].calls && !ss[i].calls[u].phase.Returned?
    ensures Enabled(ss[i], l) && (l.Run? || l.Finish? || (l.Check? && l.u == u) || (l.Aim? && l.u == u)
                                  || (l.Register? && l.u == u) || (l.Append? && l.u == u) || (l.Assign? && l.u == u)
                                  || (l.Remove? && l.u == u) || (l.Return? && l.u == u))
  {
    var s, c := ss[i], ss[i].calls[u];
    if (c.phase == Aimed || (c.phase == Waiting && c.blocking)) && s.holder.Some? {
      l := if s.holder.value.ran then Finish else Run;
    } else {
      l := match c.phase
           case Chosen => Check(u)
           case Healthy => Aim(u)
           case Aimed => Register(u)
           case Registered => Append(u, true)
           case Sent => Assign(u)
           case Waiting => if c.blocking then Remove(u) else Return(u)
           case _ => Return(u);
    }
  }

  // ---------- When the two descriptors differ ----------

  predicate Records(l: Label, h: Host) {
    l.Record? && l.h == h
  }

  /** From a on, step k is the last one before i that records the host, and it records another descriptor. */
  ghost predicate RecordsOther(ss: seq<State>, ls: seq<Label>, a: nat, i: nat, h: Host, k: int) {
    && a <= k < i <= |ls| < |ss| && Records(ls[k], h) && ls[k].st.sfd != StatusOf(ss[a], h).sfd
    && forall j :: k < j < i ==> !Records(ls[j], h)
  }

  lemma {:induction false} StatusMeans(ss: seq<State>, ls: seq<Label>, a: nat, i: nat, h: Host)
    requires IsRun(ss, ls) && a <= i <= |ls|
    ensures StatusOf(ss[i], h).sfd != StatusOf(ss[a], h).sfd <==> exists k :: RecordsOther(ss, ls, a, i, h, k)
    decreases i
  {
    if a < i {
      var j := i - 1;
      StatusMeans(ss, ls, a, j, h);
      if Records(ls[j], h) {
        assert RecordsOther(ss, ls, a, i, h, j) <==> ls[j].st.sfd != StatusOf(ss[a], h).sfd;
        assert forall k :: RecordsOther(ss, ls, a, i, h, k) ==> k == j;
      } else {
        assert StatusOf(ss[i], h) == StatusOf(ss[j], h);
        assert forall k :: RecordsOther(ss, ls, a, i, h, k) <==> RecordsOther(ss, ls, a, j, h, k);
      }
    }
  }

  ghost predicate ChosenAt(ss: seq<State>, ls: seq<Label>, u: Uuid, c: Call, a: nat)
    requires |ss| > |ls| > a
  {
    ls[a] == Choose(u, c.host, c.blocking) && c.fd1 == StatusOf(ss[a], c.host).sfd
  }

  ghost predicate AimedAt(ss: seq<State>, ls: seq<Label>, u: Uuid, c: Call, b: nat)
    requires |ss| > |ls| > b
  {
    ls[b] == Aim(u) && c.fd2 == StatusOf(ss[b], c.host).sfd
  }

  lemma {:induction false} WhenChosen(ss: seq<State>, ls: seq<Label>, i: nat, u: Uuid) returns (a: nat)
    requires IsRun(ss, ls) && i <= |ls| && u in ss[i].calls
    ensures a < i && ChosenAt(ss, ls, u, ss[i].calls[u], a)
  {
    var j := i - 1;
    RunKeeps(ss, ls, j);
    if u in ss[j].calls {
      a := WhenChosen(ss, ls, j, u);
      StepGrows(ss[j], ls[j], u);
    } else {
      a := j;
    }
  }

  lemma {:induction false} WhenAimed(ss: seq<State>, ls: seq<Label>, i: nat, u: Uuid) returns (b: nat)
    requires IsRun(ss, ls) && i <= |ls| && u in ss[i].calls
    requires ss[i].calls[u].phase == Aimed || ss[i].calls[u].registered
    ensures b < i && u in ss[b].calls && AimedAt(ss, ls, u, ss[i].calls[u], b)
  {
    var j := i - 1;
    RunKeeps(ss, ls, j);
    assert CallOk(ss[j], u);
    if ls[j] == Aim(u) {
      b := j;
    } else {
      b := WhenAimed(ss, ls, j, u);
      StepGrows(ss[j], ls[j], u);
    }
  }

  /**
   A registered call has read two different descriptors if and only if its host was recorded with another one between
   the steps in which it read them, and not with the first one again since.
   */
  lemma DescriptorsDiffer(ss: seq<State>, ls: seq<Label>, i: nat, u: Uuid) returns (a: nat, b: nat)
    requires IsRun(ss, ls) && i <= |ls| && u in ss[i].calls && ss[i].calls[u].registered
    ensures a < b < i && ls[a] == Choose(u, ss[i].calls[u].host, ss[i].calls[u].blocking) && ls[b] == Aim(u)
    ensures ss[i].calls[u].fd1 != ss[i].calls[u].fd2
            <==> exists k :: RecordsOther(ss, ls, a, b, ss[i].calls[u].host, k)
  {
    b := WhenAimed(ss, ls, i, u);
    a := WhenChosen(ss, ls, b, u);
    RunGrows(ss, ls, b, i, u);
    StatusMeans(ss, ls, a, b, ss[i].calls[u].host);
  }

  // ---------- Runs that show what can go wrong ----------

  lemma Extend(ss: seq<State>, ls: seq<Label>, l: Label) returns (ss': seq<State>, ls': seq<Label>)
    requires IsRun(ss, ls) && Enabled(ss[|ls|], l)
    ensures IsRun(ss', ls') && ss'[|ls'|] == Apply(ss[|ls|], l)
  {
    ss', ls' := ss + [Apply(ss[|ls|], l)], ls + [l];
  }

  // The host is connected, a call begins, and the host's status is recorded anew before the call goes on to send.
  lemma Appended(u: Uuid, h: Host, fd1: Fd, fd2: Fd) returns (ss: seq<State>, ls: seq<Label>)
    ensures IsRun(ss, ls)
    ensures ss[|ls|] == State(map[h := Status(true, fd2)],
                              map[u := Call(true, h, fd1, fd2, Waiting, true, Some(true), true, 0, [])],
                              {Key(fd2, u)}, None)
  {
    ss, ls := [EMPTY], [];
    ss, ls := Extend(ss, ls, Record(h, Status(true, fd1)));
    ss, ls := Extend(ss, ls, Choose(u, h, true));
    ss, ls := Extend(ss, ls, Record(h, Status(true, fd2)));
    ss, ls := Extend(ss, ls, Check(u));
    ss, ls := Extend(ss, ls, Aim(u));
    ss, ls := Extend(ss, ls, Register(u));
    ss, ls := Extend(ss, ls, Append(u, true));
    ss, ls := Extend(ss, ls, Assign(u));
  }

  // The host is reconnected between the two readings; the response comes after the call has given up.
  lemma Reconnected(u: Uuid, h: Host, fd1: Fd, fd2: Fd) returns (ss: seq<State>, ls: seq<Label>)
    requires fd1 != fd2
    ensures Dangling(ss, ls, u, fd1, fd2)
  {
    ss, ls := Appended(u, h, fd1, fd2);
    ss, ls := Extend(ss, ls, Remove(u));
    ss, ls := Extend(ss, ls, Return(u));
    ss, ls := Extend(ss, ls, Lookup(Key(fd2, u)));
  }

  /** A blocking call that gives up waiting returns true, as if the result were there. */
  lemma TimeoutReportsSuccess(u: Uuid, h: Host, fd: Fd) returns (ss: seq<State>, ls: seq<Label>)
    ensures IsRun(ss, ls) && u in ss[|ls|].calls
    ensures var c := ss[|ls|].calls[u]; c.blocking && c.phase == Returned(true) && c.runs == 0 && c.exits == [ByRemoval]
  {
    ss, ls := Appended(u, h, fd, fd);
    ss, ls := Extend(ss, ls, Remove(u));
    ss, ls := Extend(ss, ls, Return(u));
  }

  /** A message is refused; the call has returned false, and its callback is in the table. */
  lemma RefusedIsRegistered(u: Uuid, h: Host, fd: Fd) returns (ss: seq<State>, ls: seq<Label>)
    ensures IsRun(ss, ls) && u in ss[|ls|].calls && InTable(ss[|ls|], u)
    ensures var c := ss[|ls|].calls[u]; !c.blocking && c.registered && c.phase == Returned(false) && c.exits == []
  {
    ss, ls := [EMPTY], [];
    ss, ls := Extend(ss, ls, Record(h, Status(true, fd)));
    ss, ls := Extend(ss, ls, Choose(u, h, false));
    ss, ls := Extend(ss, ls, Check(u));
    ss, ls := Extend(ss, ls, Aim(u));
    ss, ls := Extend(ss, ls, Register(u));
    ss, ls := Extend(ss, ls, Append(u, false));
    ss, ls := Extend(ss, ls, Assign(u));
    ss, ls := Extend(ss, ls, Return(u));
  }

  /** A peer answers a message that the writer refused, before the call has returned; the call returns true. */
  lemma RefusedButAnswered(u: Uuid, h: Host, fd: Fd) returns (ss: seq<State>, ls: seq<Label>)
    ensures IsRun(ss, ls) && u in ss[|ls|].calls
    ensures ss[|ls|].calls[u].phase == Returned(true) && ss[|ls|].calls[u].appended == Some(false)
  {
    ss, ls := Refused(u, h, fd);
    ss, ls := Extend(ss, ls, Lookup(Key(fd, u)));
    ss, ls := Extend(ss, ls, Run);
    ss, ls := Extend(ss, ls, Finish);
    ss, ls := Extend(ss, ls, Remove(u));
    ss, ls := Extend(ss, ls, Return(u));
  }

  // A blocking call has registered its callback, and the writer has refused the message.
  lemma Refused(u: Uuid, h: Host, fd: Fd) returns (ss: seq<State>, ls: seq<Label>)
    ensures IsRun(ss, ls)
    ensures ss[|ls|] == State(map[h := Status(true, fd)],
                              map[u := Call(true, h, fd, fd, Waiting, true, Some(false), false, 0, [])],
                              {Key(fd, u)}, None)
  {
    ss, ls := [EMPTY], [];
    ss, ls := Extend(ss, ls, Record(h, Status(true, fd)));
    ss, ls := Extend(ss, ls, Choose(u, h, true));
    ss, ls := Extend(ss, ls, Check(u));
    ss, ls := Extend(ss, ls, Aim(u));
    ss, ls := Extend(ss, ls, Register(u));
    ss, ls := Extend(ss, ls, Append(u, false));
    ss, ls := Extend(ss, ls, Assign(u));
  }
}
