/** How the client's retry pass removes the hosts it has reconnected from the list of hosts to retry. */
module Erasure {
  import opened Bytes
  import opened Hosts

  /** Erases one position after the other, each in what the erasures before it have left; out of range is undefined. */
  function EraseEach(list: seq<Host>, positions: seq<nat>): Option<seq<Host>> {
    if positions == [] then Some(list)
    else if positions[0] >= |list| then None
    else EraseEach(list[..positions[0]] + list[positions[0] + 1..], positions[1..])
  }

  /** The list without the entries at the given positions. */
  function Without(list: seq<Host>, positions: seq<nat>): seq<Host> {
    if list == [] then []
    else
      var n := |list| - 1;
      Without(list[..n], positions) + if n in positions then [] else [list[n]]
  }

  ghost predicate Increasing(positions: seq<nat>, bound: nat) {
    && (forall i, j :: 0 <= i < j < |positions| ==> positions[i] < positions[j])
    && (forall i :: 0 <= i < |positions| ==> positions[i] < bound)
  }

  ghost predicate Distinct(list: seq<Host>) {
    forall i, j :: 0 <= i < j < |list| ==> list[i] != list[j]
  }

  /** The loop over the positions found, as the code runs it. */
  method EraseReconnected(list: seq<Host>, sci: seq<nat>) returns (r: Option<seq<Host>>)
    ensures r == EraseEach(list, sci)
  {
    var hosts := list;
    var i := 0;
    while i < |sci|
      invariant 0 <= i <= |sci|
      invariant EraseEach(list, sci) == EraseEach(hosts, sci[i..])
    {
      if sci[i] >= |hosts| {
        return None;
      }
      hosts := hosts[..sci[i]] + hosts[sci[i] + 1..];
      i := i + 1;
    }
    r := Some(hosts);
  }

  lemma {:induction false} WithoutIs(list: seq<Host>, positions: seq<nat>)
    ensures forall h ::
              h in Without(list, positions) <==> exists i :: 0 <= i < |list| && list[i] == h && i !in positions
  {
    if list != [] {
      var n := |list| - 1;
      WithoutIs(list[..n], positions);
      forall h
        ensures h in Without(list, positions) <==> exists i :: 0 <= i < |list| && list[i] == h && i !in positions
      {
        if i :| 0 <= i < n && list[i] == h && i !in positions {
          assert list[..n][i] == h;
        }
        if n !in positions && list[n] == h {
          assert h in Without(list, positions);
        }
      }
    }
  }

  lemma {:induction false} WithoutDistinct(list: seq<Host>, positions: seq<nat>)
    requires Distinct(list)
    ensures Distinct(Without(list, positions))
  {
    if list != [] {
      var n := |list| - 1;
      WithoutDistinct(list[..n], positions);
      WithoutIs(list[..n], positions);
      assert list[n] !in Without(list[..n], positions);
    }
  }

  lemma {:induction false} WithoutNone(list: seq<Host>)
    ensures Without(list, []) == list
  {
    if list != [] {
      WithoutNone(list[..|list| - 1]);
    }
  }

  lemma {:induction false} WithoutOne(list: seq<Host>, k: nat)
    ensures k < |list| ==> Without(list, [k]) == list[..k] + list[k + 1..]
    ensures k >= |list| ==> Without(list, [k]) == list
  {
    if list != [] {
      var n := |list| - 1;
      WithoutOne(list[..n], k);
      assert n in [k] <==> n == k;
      if k < n {
        assert list[k + 1..] == list[..n][k + 1..] + [list[n]];
      } else if k == n {
        assert list[..k] + list[k + 1..] == list[..n];
      } else {
        assert list == list[..n] + [list[n]];
      }
    }
  }

  /** Positions from k on leave what is before k as it is. */
  lemma {:induction false} PrefixStays(list: seq<Host>, positions: seq<nat>, k: nat)
    requires k <= |list| && (forall i :: 0 <= i < |positions| ==> positions[i] >= k)
    requires EraseEach(list, positions).Some?
    ensures IsPrefix(list[..k], EraseEach(list, positions).value)
    decreases |positions|
  {
    if positions != [] {
      var p := positions[0];
      PrefixStays(list[..p] + list[p + 1..], positions[1..], k);
    }
  }

  /** The second host that was reconnected survives the erasures. */
  lemma SecondSurvives(list: seq<Host>, sci: seq<nat>)
    requires Increasing(sci, |list|) && |sci| > 1 && EraseEach(list, sci).Some?
    ensures list[sci[1]] in EraseEach(list, sci).value
  {
    var p, q := sci[0], sci[1];
    var rest := list[..p] + list[p + 1..];
    PrefixStays(rest, sci[1..], q);
    assert rest[q - 1] == list[q];
    assert EraseEach(list, sci).value[..q][q - 1] == rest[..q][q - 1];
  }

  /** The pass removes the hosts it has reconnected, and no other, if and only if there is at most one. */
  lemma ErasureExact(list: seq<Host>, sci: seq<nat>)
    requires Distinct(list) && Increasing(sci, |list|)
    ensures EraseEach(list, sci) == Some(Without(list, sci)) <==> |sci| <= 1
  {
    if |sci| == 0 {
      WithoutNone(list);
    } else if |sci| == 1 {
      assert sci == [sci[0]];
      WithoutOne(list, sci[0]);
      assert EraseEach(list[..sci[0]] + list[sci[0] + 1..], sci[1..]) == Some(list[..sci[0]] + list[sci[0] + 1..]);
    } else if EraseEach(list, sci).Some? {
      SecondSurvives(list, sci);
      WithoutIs(list, sci);
      assert list[sci[1]] !in Without(list, sci);
    }
  }
}
