/** The sending side of one connection, as a value: what was appended, what is buffered, what the socket took. */
module Outboxes {
  import opened Bytes
  import opened Frames

  datatype Outbox = Outbox(sent: seq<Msg>, buffer: seq<Byte>, accepted: seq<Byte>, lost: nat)

  const EMPTY := Outbox([], [], [], 0)

  function Slice(o: Outbox): nat {
    Min(SLICE, |o.buffer|)
  }

  function Appended(o: Outbox, m: Msg): Outbox
    requires Sized(m)
  {
    o.(sent := o.sent + [m], buffer := o.buffer + Pack(m))
  }

  /** A write call took n bytes of the slice. The slice leaves the buffer whatever n is, so the rest of it is lost. */
  function Written(o: Outbox, n: nat): Outbox
    requires n <= Slice(o)
  {
    o.(accepted := o.accepted + o.buffer[..n],
       buffer := o.buffer[Slice(o)..],
       lost := o.lost + Slice(o) - n)
  }

  /** A sequence of write calls with these results. */
  function WrittenAll(o: Outbox, ns: seq<nat>): Outbox {
    if ns == [] then o
    else
      var prev := WrittenAll(o, ns[..|ns| - 1]);
      Written(prev, Min(ns[|ns| - 1], Slice(prev)))
  }

  lemma WrittenSnoc(o: Outbox, ns: seq<nat>, n: nat)
    ensures var prev := WrittenAll(o, ns); WrittenAll(o, ns + [n]) == Written(prev, Min(n, Slice(prev)))
  {
    assert (ns + [n])[..|ns|] == ns;
  }

  /** Bytes are conserved, up to the count of those lost; nothing taken is ever taken back. */
  lemma {:induction false} WritesConserve(o: Outbox, ns: seq<nat>)
    ensures var r := WrittenAll(o, ns);
            && r.lost >= o.lost && IsPrefix(o.accepted, r.accepted) && r.sent == o.sent
            && |r.accepted| + |r.buffer| + r.lost == |o.accepted| + |o.buffer| + o.lost
            && (r.accepted + r.buffer == o.accepted + o.buffer <==> r.lost == o.lost)
  {
    if ns != [] {
      var prev := WrittenAll(o, ns[..|ns| - 1]);
      WritesConserve(o, ns[..|ns| - 1]);
      OneWrite(prev, Min(ns[|ns| - 1], Slice(prev)));
    }
  }

  lemma OneWrite(o: Outbox, n: nat)
    requires n <= Slice(o)
    ensures var r := Written(o, n);
            && IsPrefix(o.accepted, r.accepted)
            && |r.accepted| + |r.buffer| + r.lost == |o.accepted| + |o.buffer| + o.lost
            && (n == Slice(o) ==> r.accepted + r.buffer == o.accepted + o.buffer)
  {
    assert o.buffer == o.buffer[..n] + o.buffer[n..];
  }

  /** The variant that clears only what was taken. */
  function WrittenByCount(o: Outbox, n: nat): Outbox
    requires n <= Slice(o)
  {
    o.(accepted := o.accepted + o.buffer[..n], buffer := o.buffer[n..])
  }

  ghost predicate Conserves(o: Outbox) {
    && AllSized(o.sent)
    && |o.accepted| + |o.buffer| + o.lost == |Stream(o.sent)|
    && (o.lost == 0 ==> o.accepted + o.buffer == Stream(o.sent))
  }

  datatype Op = Append(m: Msg) | Write(n: nat)

  ghost predicate Legal(o: Outbox, op: Op) {
    match op
    case Append(m) => Sized(m)
    case Write(n) => n <= Slice(o)
  }

  function After(o: Outbox, op: Op, byCount: bool): Outbox
    requires Legal(o, op)
  {
    match op
    case Append(m) => Appended(o, m)
    case Write(n) => if byCount then WrittenByCount(o, n) else Written(o, n)
  }

  lemma AfterConserves(o: Outbox, op: Op, byCount: bool)
    requires Legal(o, op) && Conserves(o)
    ensures Conserves(After(o, op, byCount))
  {
    match op
    case Append(m) =>
      StreamSnoc(o.sent, m);
      assert o.accepted + (o.buffer + Pack(m)) == o.accepted + o.buffer + Pack(m);
    case Write(n) =>
      assert o.buffer == o.buffer[..n] + o.buffer[n..];
      assert o.accepted + o.buffer == o.accepted + o.buffer[..n] + o.buffer[n..];
  }

  ghost predicate IsRun(os: seq<Outbox>, ops: seq<Op>, byCount: bool) {
    && |os| == |ops| + 1 && os[0] == EMPTY
    && forall i :: 0 <= i < |ops| ==> Legal(os[i], ops[i]) && os[i + 1] == After(os[i], ops[i], byCount)
  }

  /** The messages that the operations append, in order. */
  function MessagesOf(ops: seq<Op>): seq<Msg> {
    if ops == [] then []
    else
      var op := ops[|ops| - 1];
      MessagesOf(ops[..|ops| - 1]) + if op.Append? then [op.m] else []
  }

  /** How many bytes the write calls took, and how many of their slices they did not take. */
  function TakenBy(ops: seq<Op>): nat {
    if ops == [] then 0
    else
      var op := ops[|ops| - 1];
      TakenBy(ops[..|ops| - 1]) + if op.Write? then op.n else 0
  }

  ghost predicate WholeSlices(os: seq<Outbox>, ops: seq<Op>)
    requires |os| == |ops| + 1
  {
    forall i :: 0 <= i < |ops| && ops[i].Write? ==> ops[i].n == Slice(os[i])
  }

  /** The messages sent are those appended, in order, and the bytes taken are as many as the write calls returned. */
  lemma {:induction false} SentAndTaken(os: seq<Outbox>, ops: seq<Op>, byCount: bool)
    requires IsRun(os, ops, byCount)
    ensures os[|ops|].sent == MessagesOf(ops) && |os[|ops|].accepted| == TakenBy(ops)
  {
    if ops != [] {
      var n := |ops| - 1;
      SentAndTaken(os[..n + 1], ops[..n], byCount);
    }
  }

  /**
   Every run of appends and writes. As the code clears, the bytes taken and the bytes buffered are exactly the
   frames appended, in order and whole, if and only if every write so far took its whole slice.
   */
  lemma {:induction false} StreamIntact(os: seq<Outbox>, ops: seq<Op>)
    requires IsRun(os, ops, false)
    ensures var o := os[|ops|];
            && Conserves(o)
            && (o.lost == 0 <==> WholeSlices(os, ops))
            && (o.accepted + o.buffer == Stream(o.sent) <==> WholeSlices(os, ops))
  {
    if ops != [] {
      var n := |ops| - 1;
      StreamIntact(os[..n + 1], ops[..n]);
      AfterConserves(os[n], ops[n], false);
      assert WholeSlices(os, ops)
             <==> WholeSlices(os[..n + 1], ops[..n]) && (ops[n].Write? ==> ops[n].n == Slice(os[n])) by {
        assert forall i :: 0 <= i < n ==> ops[..n][i] == ops[i] && os[..n + 1][i] == os[i];
      }
    }
  }

  /** Clearing by the count returned keeps the stream intact whatever the socket takes. */
  lemma {:induction false} StreamIntactByCount(os: seq<Outbox>, ops: seq<Op>)
    requires IsRun(os, ops, true)
    ensures var o := os[|ops|];
            Conserves(o) && o.lost == 0 && o.accepted + o.buffer == Stream(o.sent)
  {
    if ops != [] {
      var n := |ops| - 1;
      StreamIntactByCount(os[..n + 1], ops[..n]);
      AfterConserves(os[n], ops[n], true);
    }
  }

  /**
   What a short write does to the messages: two clean messages are appended, the first write takes r bytes of the
   first frame, and the receiver is given one message that begins like the first and ends with the whole second.
   */
  lemma ShortWriteCorrupts(m1: Msg, m2: Msg, r: nat)
    requires Sized(m1) && Sized(m2) && Clean(m1) && Clean(m2)
    requires |m1.body| <= |m2.body| <= SLICE - ID_SIZE - 1 && 0 < r < |Pack(m1)|
    ensures Slice(Appended(EMPTY, m1)) == |Pack(m1)|
    ensures var o1 := Appended(Written(Appended(EMPTY, m1), r), m2);
            && Slice(o1) == |Pack(m2)|
            && var o2 := Written(o1, |Pack(m2)|);
            && o2.sent == [m1, m2] && o2.buffer == []
            && var got := Delivered(Fields.Feed([], o2.accepted, EOT).frames);
            && |got| == 1
            && got[0].id + got[0].body == (m1.id + m1.body)[..r] + m2.id + m2.body
            && !IsPrefix(got, o2.sent)
  {
    var content := (m1.id + m1.body)[..r] + m2.id + m2.body;
    ShortWriteOnTheWire(m1, m2, r);
    assert EOT !in content;
    OneDelivered(content);
  }

  lemma ShortWriteOnTheWire(m1: Msg, m2: Msg, r: nat)
    requires Sized(m1) && Sized(m2) && 0 < r < |Pack(m1)|
    requires |m1.body| <= |m2.body| <= SLICE - ID_SIZE - 1
    ensures var o1 := Appended(Written(Appended(EMPTY, m1), r), m2);
            && o1.buffer == Pack(m2)
            && Written(o1, |Pack(m2)|).accepted == (m1.id + m1.body)[..r] + m2.id + m2.body + [EOT]
  {
    assert m1.id[..ID_SIZE] == m1.id && m2.id[..ID_SIZE] == m2.id;
    assert Appended(EMPTY, m1).buffer == Pack(m1);
    assert Pack(m1)[..r] == (m1.id + m1.body)[..r];
    var o1 := Appended(Written(Appended(EMPTY, m1), r), m2);
    assert o1.buffer == Pack(m2) && o1.accepted == (m1.id + m1.body)[..r];
    assert Pack(m2)[..|Pack(m2)|] == Pack(m2);
  }
}
