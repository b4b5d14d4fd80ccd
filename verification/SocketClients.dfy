/**
 The client object: its hosts, connections, callbacks and marked descriptors. The methods that connect, mark, reap and
 retry hosts are shown to do, one after the other, the steps of module ClientHosts, so that what holds of all runs
 there holds of the object.
 */
module SocketClients {
  import opened Bytes
  import opened Frames
  import opened Buffers
  import opened Interest
  import opened SocketUtils
  import opened Hosts
  import opened Erasure
  import opened ClientHosts
  import opened SocketServers

  type Uuid = seq<Byte>

  ghost predicate Path(s: State, ss: seq<State>, ls: seq<Label>, t: State) {
    Leads(ss, ls) && ss[0] == s && ss[|ls|] == t
  }

  /** Some steps lead from s to t. */
  ghost predicate Reaches(s: State, t: State) {
    exists ss, ls :: Path(s, ss, ls, t)
  }

  lemma ReachesItself(s: State)
    ensures Reaches(s, s)
  {
    assert Path(s, [s], [], s);
  }

  lemma ReachesOn(s: State, t: State, l: Label)
    requires Reaches(s, t) && Enabled(t, l)
    ensures Reaches(s, Apply(t, l))
  {
    var ss: seq<State>, ls: seq<Label> :| Path(s, ss, ls, t);
    var ss', ls' := Extend(ss, ls, l);
    assert Path(s, ss', ls', Apply(t, l));
  }

  /** Steps do not lead out of the set. */
  ghost predicate Closed(reach: iset<State>) {
    forall t, l :: t in reach && Enabled(t, l) ==> Apply(t, l) in reach
  }

  lemma ReachIsClosed(s: State) returns (reach: iset<State>)
    ensures s in reach && Closed(reach) && forall t :: t in reach <==> Reaches(s, t)
  {
    reach := iset t | Reaches(s, t);
    ReachesItself(s);
    forall t, l | t in reach && Enabled(t, l)
      ensures Apply(t, l) in reach
    {
      ReachesOn(s, t, l);
    }
  }

  /** What the methods of the object do extends any run that led to its state. */
  lemma RunGoesOn(ss: seq<State>, ls: seq<Label>, t: State) returns (us: seq<State>, ms: seq<Label>)
    requires IsRun(ss, ls) && Reaches(ss[|ls|], t)
    ensures IsRun(us, ms) && us[|ms|] == t && |ls| <= |ms| && ms[..|ls|] == ls
  {
    var tt: seq<State>, ks: seq<Label> :| Path(ss[|ls|], tt, ks, t);
    us, ms := ss + tt[1..], ls + ks;
    forall i | 0 <= i < |ms|
      ensures Enabled(us[i], ms[i]) && us[i + 1] == Apply(us[i], ms[i])
    {
      if i >= |ls| {
        assert us[i] == tt[i - |ls|] && us[i + 1] == tt[i + 1 - |ls|];
      }
    }
  }

  /** The invariant of the hosts holds wherever steps that break neither condition lead. */
  lemma ReachesKeeps(s: State, t: State)
    requires Reaches(s, t) && Inv(s) && Sound(t)
    ensures Inv(t)
  {
    var ss: seq<State>, ls: seq<Label> :| Path(s, ss, ls, t);
    LeadsKeeps(ss, ls, |ls|);
  }

  /** The reaper closes a descriptor, connects its host anew, and puts it on the list if that fails. */
  lemma ReapSteps(reach: iset<State>, t: State, sfd: Fd, r: Option<Fd>) returns (u: State)
    requires Closed(reach) && t in reach
    requires MarksConnected(t) && Idle(t) && t.pass.Some? && t.pass.value.todo == Nothing
    requires sfd in t.net.zm && sfd !in t.pass.value.zv && (r.Some? ==> r.value !in t.net.inUse - {sfd})
    ensures sfd in t.net.conns && u in reach && MarksConnected(u) && Idle(u)
    ensures u.pass == Some(Pass(t.pass.value.zv + {sfd}, Nothing))
    ensures var h, n := t.net.conns[sfd], t.net;
            && u.net == Made(n.(conns := n.conns - {sfd}, inUse := n.inUse - {sfd}), h, r).(revived := u.net.revived)
            && u.lists == if r.Some? then t.lists else t.lists.(retry := t.lists.retry + [h])
  {
    assert Doomed(t, sfd) && !Marked(t, sfd);
    KeepsMarks(t, Close(sfd));
    u := Apply(t, Close(sfd));
    assert u in reach;
    KeepsMarks(u, Reopen(r));
    u := Apply(u, Reopen(r));
    assert u in reach;
    var last := if r.Some? then Record(Reaper) else ReapPush;
    assert r.Some? ==> u.net.making - {Reaper} == map[];
    KeepsMarks(u, last);
    u := Apply(u, last);
    assert u in reach;
  }

  /** What connect_to_hosts does when the attempts end like this. */
  function StartLabels(rs: seq<Option<Fd>>): seq<Label> {
    if rs == [] then []
    else
      var r := rs[|rs| - 1];
      StartLabels(rs[..|rs| - 1]) + [Connect(r), if r.Some? then Record(Starter) else PushMain]
  }

  /** What a retry pass does between its begin and its end. */
  function RetryLabels(rs: seq<Option<Fd>>): seq<Label> {
    if rs == [] then []
    else
      var r := rs[|rs| - 1];
      RetryLabels(rs[..|rs| - 1]) + [Retry(r)] + if r.Some? then [Record(Retrier)] else []
  }

  lemma RetrySnoc(rs: seq<Option<Fd>>, r: Option<Fd>)
    ensures [RetryBegin] + RetryLabels(rs + [r])
            == [RetryBegin] + RetryLabels(rs) + [Retry(r)] + if r.Some? then [Record(Retrier)] else []
  {
    assert (rs + [r])[..|rs|] == rs;
  }

  function Failures(rs: seq<Option<Fd>>): nat {
    if rs == [] then 0 else Failures(rs[..|rs| - 1]) + if rs[|rs| - 1].Some? then 0 else 1
  }

  /** The whole of make_connection. */
  function Made(n: Net, h: Host, r: Option<Fd>): Net {
    match r
    case Some(fd) =>
      n.(inUse := n.inUse + {fd}, conns := n.conns[fd := h], status := n.status[h := Status(true, fd)])
    case None => n.(status := n.status[h := Status(false, -1)])
  }

  function Tidied(s: State, h: Host, r: Option<Fd>): State {
    s.(net := Made(s.net, h, r),
       lists := if r.Some? then s.lists else s.lists.(retry := s.lists.retry + [h]))
  }

  /** The labels of one call of make_connection, one after the other. */
  lemma TryAndRecord(ss: seq<State>, ls: seq<Label>, l: Label) returns (ss': seq<State>, ls': seq<Label>)
    requires Leads(ss, ls) && Enabled(ss[|ls|], l) && Tries(l) && ss[|ls|].net.making == map[]
    ensures Leads(ss', ls') && ss'[0] == ss[0]
    ensures ls' == ls + [l] + if l.r.Some? then [Record(Trier(l))] else []
    ensures var s, s' := ss[|ls|], ss'[|ls'|];
            && s'.net == Made(s.net, Target(s, Trier(l)).value, l.r).(revived := s'.net.revived)
            && s'.undefined == s.undefined
            && s'.lists == Attempted(s, l).lists && s'.pass == Attempted(s, l).pass
  {
    ss', ls' := Extend(ss, ls, l);
    if l.r.Some? {
      assert Apply(ss'[|ls'|], Record(Trier(l))).net.making == map[];
      ss', ls' := Extend(ss', ls', Record(Trier(l)));
    }
  }

  lemma ReapedSnoc(zm: map<Fd, nat>, order: seq<Fd>, clock: seq<nat>, i: nat)
    requires i < |order| == |clock| && AllMarked(zm, order) && NoDuplicates(order)
    ensures order[i] !in Reaped(zm, order[..i], clock[..i])
    ensures var prev := Reaped(zm, order[..i], clock[..i]);
            Reaped(zm, order[..i + 1], clock[..i + 1])
            == if Expired(zm[order[i]], clock[i]) then prev + [order[i]] else prev
  {
    assert order[..i + 1][..i] == order[..i] && clock[..i + 1][..i] == clock[..i];
    ReapedExact(zm, order[..i], clock[..i]);
  }

  lemma ElementsSnoc(s: seq<Fd>, x: Fd)
    ensures Elements(s + [x]) == Elements(s) + {x}
  {
  }

  lemma LessOne<V>(m: map<Fd, V>, fds: set<Fd>, fd: Fd)
    ensures m - fds - {fd} == m - (fds + {fd})
  {
  }

  /** Nobody is retrying, marking or recording. */
  ghost predicate Idle(s: State) {
    s.lists.attempt == None && s.net.markers == map[] && s.net.making == map[]
  }

  /** A retry pass has come to this position. */
  ghost predicate Retrying(s: State, i: nat, sci: seq<nat>) {
    s.lists.attempt == Some(Attempt(i, sci)) && s.net.markers == map[] && s.net.making == map[]
  }

  class SocketClient {
    const desired: seq<Host>
    var hStatus: map<Host, Status>
    var conns: map<Fd, Host>
    // The descriptors of connections that the system has not been told to close.
    var inUse: set<Fd>
    var zm: map<Fd, nat>
    var eHosts: seq<Host>
    var callBacks: map<Fd, set<Uuid>>
    var rrm: map<Fd, ReadR>
    var wrm: map<Fd, WriteR>
    const table: EventTable
    // Which descriptors were closed, and which callbacks were called with what, in order.
    var closed: seq<Fd>
    var called: seq<(Fd, Msg)>

    constructor (desired: seq<Host>)
      ensures this.desired == desired && fresh(table) && table.events == map[] && table.kernel == map[]
      ensures Distinct(desired) ==> Init(Start(desired))
      ensures Shows(Start(desired))
      ensures callBacks == map[] && rrm == map[] && wrm == map[] && zm == map[]
    {
      this.desired := desired;
      hStatus, conns, zm, eHosts, callBacks, rrm, wrm := map[], map[], map[], [], map[], map[], map[];
      inUse, closed, called := {}, [], [];
      table := new EventTable();
    }

    /** The tables of the object are those of the state. */
    ghost predicate Shows(s: State)
      reads this
    {
      && s.net.conns == conns && s.net.inUse == inUse && s.net.status == hStatus && s.net.zm == zm.Keys
      && s.lists.desired == desired && s.lists.retry == eHosts
    }

    /** Whether the host can be reached, and the descriptor, is the system's choice; the descriptor is not in use. */
    method Dial() returns (r: Option<Fd>)
      ensures r.Some? ==> r.value >= 0 && r.value !in inUse
    {
      var sfd: Fd := *;
      r := if 0 <= sfd && sfd !in inUse then Some(sfd) else None;
    }

    method MakeConnection(node: Host) returns (success: bool, ghost r: Option<Fd>)
      modifies this`conns, this`inUse, this`hStatus, table
      ensures success == r.Some? && (success ==> r.value !in old(inUse))
      ensures forall s :: old(Shows(s)) ==> Shows(s.(net := Made(s.net, node, r)))
      ensures success ==> table.events == old(table.events)[r.value := Mask(true, false)]
      ensures success ==> table.kernel == old(table.kernel)[r.value := Mask(true, false)]
      ensures !success ==> table.events == old(table.events) && table.kernel == old(table.kernel)
    {
      var answer := Dial();
      r := answer;
      success := answer.Some?;
      var status := Status(false, -1);
      if success {
        var sfd := answer.value;
        inUse := inUse + {sfd};
        table.kernel := table.kernel[sfd := Mask(true, false)];
        status := Status(true, sfd);
        conns := conns[sfd := node];
        table.events := table.events[sfd := Mask(true, false)];
      }
      hStatus := hStatus[node := status];
    }

    /** Tries every desired host once; those that fail are on the retry list in the end. */
    method ConnectToHosts(ghost s: State)
      returns (sConns: nat, ghost rs: seq<Option<Fd>>, ghost ss: seq<State>, ghost ls: seq<Label>)
      requires Shows(s) && s.lists.next == 0 && s.lists.main == None && Idle(s)
      modifies this`conns, this`inUse, this`hStatus, this`eHosts, table
      ensures Leads(ss, ls) && ss[0] == s && Shows(ss[|ls|]) && ls == StartLabels(rs) && |rs| == |desired|
      ensures ss[|ls|].lists.next == |desired| && ss[|ls|].lists.main == None && Idle(ss[|ls|])
      ensures sConns == |desired| - Failures(rs) && |eHosts| == |old(eHosts)| + Failures(rs)
    {
      rs, ss, ls := [], [s], [];
      sConns := 0;
      var i := 0;
      while i < |desired|
        invariant 0 <= i <= |desired| && |rs| == i && ls == StartLabels(rs)
        invariant Leads(ss, ls) && ss[0] == s && Shows(ss[|ls|])
        invariant ss[|ls|].lists.next == i && ss[|ls|].lists.main == None && Idle(ss[|ls|])
        invariant sConns == i - Failures(rs) && |eHosts| == |old(eHosts)| + Failures(rs)
      {
        var success, r := MakeConnection(desired[i]);
        ss, ls := TryAndRecord(ss, ls, Connect(r));
        if success {
          sConns := sConns + 1;
        } else {
          eHosts := eHosts + [desired[i]];
          ss, ls := Extend(ss, ls, PushMain);
        }
        assert (rs + [r])[..i] == rs;
        rs := rs + [r];
        i := i + 1;
      }
    }

    /** One pass of the retry thread, except for its sleep. It is not defined when an erasure is out of range. */
    method RetryPass(ghost s: State)
      returns (defined: bool, ghost rs: seq<Option<Fd>>, ghost ss: seq<State>, ghost ls: seq<Label>)
      requires Shows(s) && Idle(s)
      modifies this`conns, this`inUse, this`hStatus, this`eHosts, table
      ensures Leads(ss, ls) && ss[0] == s && Shows(ss[|ls|]) && Idle(ss[|ls|])
      ensures |rs| == |old(eHosts)| && ls == [RetryBegin] + RetryLabels(rs) + [RetryEnd]
      ensures ss[|ls|].undefined <==> s.undefined || !defined
    {
      var sci: seq<nat>;
      sci, rs, ss, ls := RetryEach(s);
      var left := EraseReconnected(eHosts, sci);
      defined := left.Some?;
      if defined {
        eHosts := left.value;
      }
      ss, ls := Extend(ss, ls, RetryEnd);
    }

    /** The first loop of a retry pass. */
    method RetryEach(ghost s: State)
      returns (sci: seq<nat>, ghost rs: seq<Option<Fd>>, ghost ss: seq<State>, ghost ls: seq<Label>)
      requires Shows(s) && Idle(s)
      modifies this`conns, this`inUse, this`hStatus, table
      ensures Leads(ss, ls) && ss[0] == s && Shows(ss[|ls|]) && |rs| == |eHosts| && ls == [RetryBegin] + RetryLabels(rs)
      ensures Retrying(ss[|ls|], |eHosts|, sci) && ss[|ls|].undefined == s.undefined
    {
      ss, ls := Extend([s], [], RetryBegin);
      sci, rs := [], [];
      var i := 0;
      while i < |eHosts|
        invariant 0 <= i <= |eHosts| && |rs| == i && ls == [RetryBegin] + RetryLabels(rs)
        invariant Leads(ss, ls) && ss[0] == s && Shows(ss[|ls|])
        invariant Retrying(ss[|ls|], i, sci) && ss[|ls|].undefined == s.undefined
      {
        var success, r := MakeConnection(eHosts[i]);
        RetrySnoc(rs, r);
        ss, ls := TryAndRecord(ss, ls, Retry(r));
        rs := rs + [r];
        if success {
          sci := sci + [i];
        }
        i := i + 1;
      }
    }

    /** Marks a connected descriptor: its host is unhealthy and it is given to the reaper. */
    method AZombied(sfd: Fd, now: nat, ghost s: State, ghost t: Tid)
      returns (ghost ss: seq<State>, ghost ls: seq<Label>)
      requires Shows(s) && Enabled(s, MarkHealth(t, sfd)) && s.pass == None
      modifies this`hStatus, this`zm
      ensures Leads(ss, ls) && ss[0] == s && Shows(ss[|ls|]) && ls == [MarkHealth(t, sfd), MarkZombie(t)]
      ensures ss[|ls|].pass == None && zm == old(zm)[sfd := now]
    {
      var node := conns[sfd];
      var status := StatusFor(node);
      hStatus := hStatus[node := status.(healthy := false)];
      zm := zm[sfd := now];
      ss, ls := Extend([s], [], MarkHealth(t, sfd));
      ss, ls := Extend(ss, ls, MarkZombie(t));
    }

    /** The epoll thread marks a descriptor that has hung up, and closes it at once; its entries stay. */
    method HangUp(sfd: Fd, now: nat, ghost s: State, ghost t: Tid) returns (ghost ss: seq<State>, ghost ls: seq<Label>)
      requires Shows(s) && Enabled(s, MarkHealth(t, sfd)) && s.pass == None && sfd in inUse
      modifies this`hStatus, this`zm, this`inUse, table`kernel
      ensures Leads(ss, ls) && ss[0] == s && Shows(ss[|ls|])
      ensures ls == [MarkHealth(t, sfd), MarkZombie(t), ClientHosts.HangUp(sfd)]
      ensures zm == old(zm)[sfd := now] && inUse == old(inUse) - {sfd}
      ensures table.kernel == old(table.kernel) - {sfd}
    {
      ss, ls := AZombied(sfd, now, s, t);
      table.kernel := table.kernel - {sfd};
      inUse := inUse - {sfd};
      ss, ls := Extend(ss, ls, ClientHosts.HangUp(sfd));
    }

    /** Closes the descriptor and erases its entries from every table but zm and the host's status. */
    method CloseNClean(sfd: Fd)
      modifies this`conns, this`inUse, this`callBacks, this`rrm, this`wrm, this`closed, table
      ensures conns == old(conns) - {sfd} && inUse == old(inUse) - {sfd}
      ensures callBacks == old(callBacks) - {sfd}
      ensures rrm == old(rrm) - {sfd} && wrm == old(wrm) - {sfd}
      ensures table.events == old(table.events) - {sfd} && table.kernel == old(table.kernel) - {sfd}
      ensures closed == old(closed) + [sfd]
    {
      conns := conns - {sfd};
      closed := closed + [sfd];
      inUse := inUse - {sfd};
      table.kernel := table.kernel - {sfd};
      callBacks := callBacks - {sfd};
      if sfd in rrm {
        rrm := rrm - {sfd};
      }
      if sfd in wrm {
        wrm := wrm - {sfd};
      }
      table.events := table.events - {sfd};
    }

    /** The entries of these descriptors are gone from the tables, and no others. */
    ghost predicate Cleaned(rrm0: map<Fd, ReadR>, wrm0: map<Fd, WriteR>, callBacks0: map<Fd, set<Uuid>>, dead: set<Fd>)
      reads this
    {
      rrm == rrm0 - dead && wrm == wrm0 - dead && callBacks == callBacks0 - dead
    }

    /** The first loop of a pass of the reaper, over the marks in an unspecified order. */
    method ReapExpired(order: seq<Fd>, clock: seq<nat>, ghost reach: iset<State>, ghost t0: State)
      returns (zv: seq<Fd>, ghost t: State)
      requires Closed(reach) && Sweeping(reach, t0, {})
      requires |clock| == |order| && NoDuplicates(order) && zm.Keys == Elements(order)
      modifies this`conns, this`inUse, this`hStatus, this`eHosts, this`callBacks, this`rrm, this`wrm, this`closed, table
      ensures zv == Reaped(zm, order, clock) && closed == old(closed) + zv
      ensures Cleaned(old(rrm), old(wrm), old(callBacks), Elements(zv))
      ensures Sweeping(reach, t, Elements(zv))
    {
      t, zv := t0, [];
      assert Elements(zv) == {};
      var i := 0;
      while i < |order|
        invariant 0 <= i <= |order| && AllMarked(zm, order)
        invariant zv == Reaped(zm, order[..i], clock[..i]) && closed == old(closed) + zv
        invariant Cleaned(old(rrm), old(wrm), old(callBacks), Elements(zv))
        invariant Sweeping(reach, t, Elements(zv))
      {
        ReapedSnoc(zm, order, clock, i);
        if Expired(zm[order[i]], clock[i]) {
          t := ReapOne(order[i], reach, t, zv, old(rrm), old(wrm), old(callBacks));
          zv := zv + [order[i]];
        }
        i := i + 1;
      }
      assert order[..i] == order && clock[..i] == clock;
    }

    /**
     One pass of the reaper: close and clean each descriptor that has expired when it is examined, and connect its host
     anew or put it on the retry list; then remove the marks.
     */
    method ReapPass(order: seq<Fd>, clock: seq<nat>, ghost s: State) returns (ghost t: State)
      requires Shows(s) && MarksConnected(s) && s.pass == None && Idle(s)
      requires |clock| == |order| && NoDuplicates(order) && zm.Keys == Elements(order)
      modifies this`conns, this`inUse, this`hStatus, this`zm, this`eHosts
      modifies this`callBacks, this`rrm, this`wrm, this`closed, table
      ensures Reaches(s, t) && Shows(t) && MarksConnected(t) && t.pass == None && Idle(t)
      ensures Inv(s) && Sound(t) ==> Inv(t)
      ensures var dead := Reaped(old(zm), order, clock);
              && closed == old(closed) + dead
              && zm == old(zm) - Elements(dead)
              && rrm == old(rrm) - Elements(dead)
              && wrm == old(wrm) - Elements(dead)
              && callBacks == old(callBacks) - Elements(dead)
    {
      ghost var reach := ReachIsClosed(s);
      t := ReapWithin(order, clock, reach, s);
      if Inv(s) && Sound(t) {
        ReachesKeeps(s, t);
      }
    }

    /** The pass, for any set that steps do not lead out of. */
    method ReapWithin(order: seq<Fd>, clock: seq<nat>, ghost reach: iset<State>, ghost s: State)
      returns (ghost t: State)
      requires Closed(reach) && s in reach && Shows(s) && MarksConnected(s) && s.pass == None && Idle(s)
      requires |clock| == |order| && NoDuplicates(order) && zm.Keys == Elements(order)
      modifies this`conns, this`inUse, this`hStatus, this`zm, this`eHosts
      modifies this`callBacks, this`rrm, this`wrm, this`closed, table
      ensures t in reach && Shows(t) && MarksConnected(t) && t.pass == None && Idle(t)
      ensures closed == old(closed) + Reaped(old(zm), order, clock)
      ensures zm == old(zm) - Elements(Reaped(old(zm), order, clock))
      ensures Cleaned(old(rrm), old(wrm), old(callBacks), Elements(Reaped(old(zm), order, clock)))
    {
      KeepsMarks(s, ReapBegin);
      t := Apply(s, ReapBegin);
      assert t in reach;
      var zv;
      zv, t := ReapExpired(order, clock, reach, t);
      KeepsMarks(t, ReapEnd);
      t := Apply(t, ReapEnd);
      assert t in reach;
      Unmark(zv);
    }

    method Unmark(zv: seq<Fd>)
      modifies this`zm
      ensures zm == old(zm) - Elements(zv)
    {
      var i := 0;
      while i < |zv|
        invariant 0 <= i <= |zv| && zm == old(zm) - Elements(zv[..i])
      {
        ElementsSnoc(zv[..i], zv[i]);
        assert zv[..i + 1] == zv[..i] + [zv[i]];
        zm := zm - {zv[i]};
        i := i + 1;
      }
      assert zv[..i] == zv;
    }

    /** The steps have led to the middle of a pass that has reaped the given descriptors, as the object shows it. */
    ghost predicate Sweeping(reach: iset<State>, t: State, reaped: set<Fd>)
      reads this
    {
      t in reach && Shows(t) && MarksConnected(t) && t.pass == Some(Pass(reaped, Nothing)) && Idle(t)
    }

    method ReapOne(sfd: Fd, ghost reach: iset<State>, ghost t: State, ghost zv: seq<Fd>,
                   ghost rrm0: map<Fd, ReadR>, ghost wrm0: map<Fd, WriteR>, ghost callBacks0: map<Fd, set<Uuid>>)
      returns (ghost u: State)
      requires Closed(reach) && Sweeping(reach, t, Elements(zv)) && sfd in zm && sfd !in zv
      requires Cleaned(rrm0, wrm0, callBacks0, Elements(zv))
      modifies this`conns, this`inUse, this`hStatus, this`eHosts, this`callBacks, this`rrm, this`wrm, this`closed, table
      ensures Sweeping(reach, u, Elements(zv + [sfd]))
      ensures closed == old(closed) + [sfd]
      ensures Cleaned(rrm0, wrm0, callBacks0, Elements(zv + [sfd]))
    {
      ghost var reaped := Elements(zv);
      ElementsSnoc(zv, sfd);
      assert sfd in conns by {
        assert Doomed(t, sfd);
      }
      var node := conns[sfd];
      CloseNClean(sfd);
      LessOne(rrm0, reaped, sfd);
      LessOne(wrm0, reaped, sfd);
      LessOne(callBacks0, reaped, sfd);
      assert Cleaned(rrm0, wrm0, callBacks0, reaped + {sfd});
      ghost var closing := t.(net := t.net.(conns := t.net.conns - {sfd}, inUse := t.net.inUse - {sfd}));
      assert Shows(closing);
      var r := MakeOrList(node);
      u := ReapSteps(reach, t, sfd, r);
      assert Shows(Tidied(closing, node, r));
    }

    /** Connects the host or puts it on the retry list. */
    method MakeOrList(node: Host) returns (ghost r: Option<Fd>)
      modifies this`conns, this`inUse, this`hStatus, this`eHosts, table
      ensures r.Some? ==> r.value !in old(inUse)
      ensures forall s :: old(Shows(s)) ==> Shows(Tidied(s, node, r))
    {
      var success;
      success, r := MakeConnection(node);
      if !success {
        eHosts := eHosts + [node];
      }
    }

    /** What `call_backs[sfd]` yields. */
    function CallBacksOf(sfd: Fd): set<Uuid>
      reads this`callBacks
    {
      if sfd in callBacks then callBacks[sfd] else {}
    }

    /** The callback of the reader, for one completed frame: the callback of that id, if any, is called and removed. */
    method Respond(sfd: Fd, frame: seq<Byte>)
      requires |frame| < TWO_32
      modifies this`callBacks, this`called
      ensures var m := Unpack(frame + [EOT]);
              && callBacks == old(callBacks)[sfd := old(CallBacksOf(sfd)) - {m.id}]
              && called == old(called) + if m.id in old(CallBacksOf(sfd)) then [(sfd, m)] else []
    {
      var uuid, msg := UnpackFrame(frame + [EOT], [], []);
      assert Msg(uuid, msg) == Unpack(frame + [EOT]) by {
        assert uuid == Unpack(frame + [EOT]).id && msg == Unpack(frame + [EOT]).body;
      }
      var registered := CallBacksOf(sfd);
      callBacks := callBacks[sfd := registered];
      assert uuid !in registered ==> registered - {uuid} == registered;
      if uuid in registered {
        called := called + [(sfd, Msg(uuid, msg))];
        callBacks := callBacks[sfd := registered - {uuid}];
      }
    }

    /** No two descriptors share a writer. */
    ghost predicate Apart()
      reads this`wrm
    {
      forall a, b :: a in wrm && b in wrm && a != b ==> wrm[a].bw != wrm[b].bw
    }

    method WriterOf(sfd: Fd) returns (wr: WriteR)
      requires Apart()
      modifies this`wrm
      ensures Apart() && sfd in wrm && wr == wrm[sfd]
      ensures sfd in old(wrm) ==> wrm == old(wrm)
      ensures sfd !in old(wrm) ==> fresh(wr.bw) && wr.bw.buffer == [] && wr.valid && wrm == old(wrm)[sfd := wr]
    {
      if sfd !in wrm {
        var nbw := new BufferedWriter();
        wrm := wrm[sfd := WriteR(nbw, true)];
      }
      wr := wrm[sfd];
    }

    /** Appends the frame if the writer, made if missing, is open, and arms EPOLLOUT. */
    method Enqueue(sfd: Fd, frame: seq<Byte>) returns (ok: bool)
      requires |frame| < TWO_32 && Apart()
      modifies this`wrm, table, set fd | fd in wrm :: wrm[fd].bw
      ensures Apart() && wrm.Keys == old(wrm.Keys) + {sfd} && (forall fd :: fd in old(wrm) ==> wrm[fd] == old(wrm[fd]))
      ensures ok == (sfd !in old(wrm) || old(wrm[sfd].valid))
      ensures ok ==> wrm[sfd].valid
      ensures ok ==> wrm[sfd].bw.buffer == (if sfd in old(wrm) then old(wrm[sfd].bw.buffer) else []) + frame
      ensures forall fd :: fd in old(wrm) && !(ok && fd == sfd) ==> wrm[fd].bw.buffer == old(wrm[fd].bw.buffer)
      ensures table.events == if ok then old(table.events)[sfd := old(table.At(sfd)).Armed(Out)] else old(table.events)
      ensures table.kernel == if ok then Told(old(table.kernel), sfd, table.events[sfd]) else old(table.kernel)
    {
      var wr := WriterOf(sfd);
      ok := wr.valid;
      if ok {
        wr.bw.Write(frame);
        table.Arm(sfd, Out);
      }
    }

    method Register(sfd: Fd, uuid: Uuid)
      modifies this`callBacks
      ensures callBacks == old(callBacks)[sfd := old(CallBacksOf(sfd)) + {uuid}]
    {
      callBacks := callBacks[sfd := CallBacksOf(sfd) + {uuid}];
    }

    /** What `h_status[h]` yields; a host that was never tried gets an entry, which is unhealthy. */
    method StatusFor(h: Host) returns (st: Status)
      modifies this`hStatus
      ensures st == if h in old(hStatus) then old(hStatus[h]) else Status(false, 0)
      ensures hStatus == old(hStatus)[h := st]
    {
      if h !in hStatus {
        hStatus := hStatus[h := Status(false, 0)];
      }
      st := hStatus[h];
    }

    /**
     Sends to the host at a given position. Nothing is sent to an unhealthy host or through a writer that is closed; in
     the latter case the callback stays registered all the same.
     */
    method SendMsg(ni: nat, uuid: seq<Byte>, msg: seq<Byte>, hasCallBack: bool) returns (ok: bool)
      requires ni < |desired|
      requires |uuid| >= ID_SIZE && ID_SIZE + |msg| + 1 < TWO_32 && Apart()
      modifies this`hStatus, this`callBacks, this`wrm, table, set fd | fd in wrm :: wrm[fd].bw
      ensures desired[ni] in hStatus && Apart()
      ensures var h := desired[ni];
              && hStatus == old(hStatus)[h := hStatus[h]]
              && hStatus[h] == if h in old(hStatus) then old(hStatus[h]) else Status(false, 0)
      ensures var st := hStatus[desired[ni]];
              && ok == (st.healthy && (st.sfd !in old(wrm) || old(wrm[st.sfd].valid)))
              && callBacks == (if st.healthy && hasCallBack
                               then old(callBacks)[st.sfd := old(CallBacksOf(st.sfd)) + {uuid}] else old(callBacks))
              && wrm.Keys == old(wrm.Keys) + (if st.healthy then {st.sfd} else {})
              && (forall fd :: fd in old(wrm) ==> wrm[fd] == old(wrm[fd]))
              && (forall fd :: fd in old(wrm) && !(ok && fd == st.sfd) ==>
                    wrm[fd].bw.buffer == old(wrm[fd].bw.buffer))
      ensures ok ==>
                var sfd := hStatus[desired[ni]].sfd;
                && wrm[sfd].valid && table.events == old(table.events)[sfd := old(table.At(sfd)).Armed(Out)]
                && table.kernel == Told(old(table.kernel), sfd, table.events[sfd])
                && wrm[sfd].bw.buffer
                   == (if sfd in old(wrm) then old(wrm[sfd].bw.buffer) else []) + Pack(Msg(uuid, msg))
      ensures !ok ==> table.events == old(table.events) && table.kernel == old(table.kernel)
    {
      var status := StatusFor(desired[ni]);
      ok := status.healthy;
      if ok {
        if hasCallBack {
          Register(status.sfd, uuid);
        }
        var frame := new Byte[ID_SIZE + |msg| + 1];
        PackFrameVectors(uuid, msg, frame);
        assert frame[..] == Pack(Msg(uuid, msg));
        ok := Enqueue(status.sfd, frame[..]);
      }
    }
  }
}
