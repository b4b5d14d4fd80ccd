/** Runs of the client that show how a host can be lost, or be in two places at once. */
module HostRuns {
  import opened Bytes
  import opened Hosts
  import opened Erasure
  import opened ClientHosts

  // The peer closes before the status of the host is recorded.
  lemma ClosedEarly(h: Host) returns (ss: seq<State>, ls: seq<Label>)
    ensures IsRun(ss, ls) && ls == [Connect(Some(5)), MarkHealth(1, 5), Record(Starter)]
    ensures var s := ss[|ls|];
            && s.lists == Agenda([h], 1, None, [], None) && s.pass == None && Sound(s)
            && s.net == Net(map[], {5}, map[5 := h], map[h := Status(true, 5)], map[1 := 5], {}, {5})
  {
    ss, ls := [Start([h])], [];
    ss, ls := Extend(ss, ls, Connect(Some(5)));
    ss, ls := Extend(ss, ls, MarkHealth(1, 5));
    assert MarkedBy(ss[|ls|], 1, 5);
    ss, ls := Extend(ss, ls, Record(Starter));
  }

  /** In the end the host is healthy, and its descriptor is marked. */
  lemma HealthyAndMarked(h: Host) returns (ss: seq<State>, ls: seq<Label>)
    ensures IsRun(ss, ls) && ls == [Connect(Some(5)), MarkHealth(1, 5), Record(Starter), MarkZombie(1)]
    ensures var s := ss[|ls|];
            && Sound(s) && AtRest(s) && Processed(s, h)
            && HealthyAndConnected(s, h) && AwaitsReaper(s, h)
  {
    ss, ls := ClosedEarly(h);
    ss, ls := Extend(ss, ls, MarkZombie(1));
    var s := ss[|ls|];
    assert s.lists.desired[0] == h && 5 in s.net.zm && ConnectedBy(s, h, 5);
  }

  // The first host is connected.
  lemma OneUp(a: Host, b: Host) returns (ss: seq<State>, ls: seq<Label>)
    requires a != b
    ensures IsRun(ss, ls)
    ensures ss[|ls|] == State(NO_CONNECTIONS.(inUse := {5}, conns := map[5 := a], status := map[a := Status(true, 5)]),
                              Agenda([a, b], 1, None, [], None), None, false, false, false)
  {
    ss, ls := [Start([a, b])], [];
    ss, ls := Extend(ss, ls, Connect(Some(5)));
    ss, ls := Extend(ss, ls, Record(Starter));
    assert forall t :: !MarkedBy(ss[1], t, 5);
  }

  // Its epoll thread reports a hang-up, and closes the descriptor.
  lemma HungUp(a: Host, b: Host) returns (ss: seq<State>, ls: seq<Label>)
    requires a != b
    ensures IsRun(ss, ls)
    ensures var s := ss[|ls|];
            && s.lists == Agenda([a, b], 1, None, [], None) && s.pass == None && !s.multi
            && s.net.making == map[] && s.net.inUse == {} && s.net.conns == map[5 := a]
  {
    ss, ls := OneUp(a, b);
    ss, ls := Extend(ss, ls, MarkHealth(1, 5));
    ss, ls := Extend(ss, ls, MarkZombie(1));
    ss, ls := Extend(ss, ls, HangUp(5));
  }

  /** The number comes back with the next connection: the first host is neither connected nor on any list any more. */
  lemma HostOverwritten(a: Host, b: Host) returns (ss: seq<State>, ls: seq<Label>)
    requires a != b
    ensures IsRun(ss, ls)
    ensures var s := ss[|ls|];
            !s.multi && Processed(s, a) && !Connected(s, a) && !Listed(s, a) && !Transit(s, a) && Connected(s, b)
  {
    ss, ls := HungUp(a, b);
    ss, ls := Extend(ss, ls, Connect(Some(5)));
    var s := ss[|ls|];
    assert s.net.conns == map[5 := b] && s.lists == Agenda([a, b], 2, None, [], None);
    assert s.lists.desired[0] == a && ConnectedBy(s, b, 5);
  }

  function Unhealthy(a: Host, b: Host, c: Host): map<Host, Status> {
    map[a := Status(false, -1), b := Status(false, -1), c := Status(false, -1)]
  }

  // Three hosts, none of which answers at first.
  lemma ThreeDown(a: Host, b: Host, c: Host) returns (ss: seq<State>, ls: seq<Label>)
    requires a != b && b != c && a != c
    ensures IsRun(ss, ls)
    ensures ss[|ls|] == State(NO_CONNECTIONS.(status := Unhealthy(a, b, c)),
                              Agenda([a, b, c], 3, None, [a, b, c], None), None, false, false, false)
  {
    ss, ls := [Start([a, b, c])], [];
    ss, ls := Extend(ss, ls, Connect(None));
    ss, ls := Extend(ss, ls, PushMain);
    ss, ls := Extend(ss, ls, Connect(None));
    ss, ls := Extend(ss, ls, PushMain);
    ss, ls := Extend(ss, ls, Connect(None));
    ss, ls := Extend(ss, ls, PushMain);
  }

  // In one pass of the retry thread, the first answers,
  lemma OneAnswers(a: Host, b: Host, c: Host) returns (ss: seq<State>, ls: seq<Label>)
    requires a != b && b != c && a != c
    ensures IsRun(ss, ls)
    ensures var s := ss[|ls|];
            && s.lists == Agenda([a, b, c], 3, None, [a, b, c], Some(Attempt(1, [0])))
            && s.pass == None && !s.undefined && !s.reused
            && s.net.making == map[] && s.net.inUse == {1} && s.net.conns == map[1 := a]
  {
    ss, ls := ThreeDown(a, b, c);
    ss, ls := Extend(ss, ls, RetryBegin);
    ss, ls := Extend(ss, ls, Retry(Some(1)));
    ss, ls := Extend(ss, ls, Record(Retrier));
    assert ss[|ls|].lists.attempt.value.sci == [0];
  }

  // then the second, and the third does not.
  lemma TwoAnswer(a: Host, b: Host, c: Host) returns (ss: seq<State>, ls: seq<Label>)
    requires a != b && b != c && a != c
    ensures IsRun(ss, ls)
    ensures var s := ss[|ls|];
            && s.lists == Agenda([a, b, c], 3, None, [a, b, c], Some(Attempt(3, [0, 1])))
            && s.pass == None && !s.undefined && !s.reused
            && s.net.making == map[] && s.net.conns == map[1 := a, 2 := b]
  {
    ss, ls := OneAnswers(a, b, c);
    ss, ls := Extend(ss, ls, Retry(Some(2)));
    ss, ls := Extend(ss, ls, Record(Retrier));
    assert ss[|ls|].lists.attempt.value.sci == [0, 1];
    ss, ls := Extend(ss, ls, Retry(None));
  }

  lemma ErasesFirstAndThird(a: Host, b: Host, c: Host)
    ensures EraseEach([a, b, c], [0, 1]) == Some([b])
  {
    var two: seq<nat>, one: seq<nat> := [0, 1], [1];
    assert [a, b, c][..0] + [a, b, c][0 + 1..] == [b, c] && two[1..] == one;
    assert [b, c][..1] + [b, c][1 + 1..] == [b] && one[1..] == [];
    assert EraseEach([b], []) == Some([b]);
    assert EraseEach([b, c], one) == EraseEach([b], one[1..]);
    assert EraseEach([a, b, c], two) == EraseEach([b, c], two[1..]);
  }

  /**
   Three hosts are on the list; in one pass the first two answer and the third does not. The pass strikes out the
   first and the third: the third is neither connected nor on any list any more, and the second will be tried again.
   */
  lemma ThirdHostForgotten(a: Host, b: Host, c: Host) returns (ss: seq<State>, ls: seq<Label>)
    requires a != b && b != c && a != c
    ensures IsRun(ss, ls)
    ensures var s := ss[|ls|];
            && !s.undefined && !s.reused && s.lists.retry == [b] && Connected(s, b)
            && Processed(s, c) && !Connected(s, c) && !Listed(s, c) && !Transit(s, c)
  {
    ss, ls := TwoAnswer(a, b, c);
    ErasesFirstAndThird(a, b, c);
    ss, ls := Extend(ss, ls, RetryEnd);
    var s := ss[|ls|];
    assert s.lists.desired[2] == c && ConnectedBy(s, b, 2);
  }
}
