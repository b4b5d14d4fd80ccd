/** Message frames: the 37-byte id, the message, and the end-of-transmission byte; nothing is escaped. */
module Frames {
  import opened Bytes
  import opened Fields

  datatype Msg = Msg(id: seq<Byte>, body: seq<Byte>)

  predicate Sized(m: Msg) {
    |m.id| == ID_SIZE
  }

  // The delimiter occurs in neither part.
  predicate Clean(m: Msg) {
    EOT !in m.id && EOT !in m.body
  }

  predicate AllSized(ms: seq<Msg>) {
    forall i :: 0 <= i < |ms| ==> Sized(ms[i])
  }

  predicate AllClean(ms: seq<Msg>) {
    forall i :: 0 <= i < |ms| ==> Clean(ms[i])
  }

  function Pack(m: Msg): seq<Byte>
    requires |m.id| >= ID_SIZE
  {
    m.id[..ID_SIZE] + m.body + [EOT]
  }

  /** Drops the last byte; the first 37 of the others are the id. */
  function Unpack(frame: seq<Byte>): Msg
    requires frame != []
  {
    var n := Min(ID_SIZE, |frame| - 1);
    Msg(frame[..n], frame[n..|frame| - 1])
  }

  /** Unpacking undoes packing, and packing undoes unpacking exactly for frames that end in the delimiter. */
  lemma PackUnpack(m: Msg, frame: seq<Byte>)
    ensures Sized(m) ==> Unpack(Pack(m)) == m
    ensures |frame| > ID_SIZE ==> (Pack(Unpack(frame)) == frame <==> frame[|frame| - 1] == EOT)
  {
    if |frame| > ID_SIZE {
      var u := Unpack(frame);
      assert u.id + u.body == frame[..|frame| - 1];
      assert frame == frame[..|frame| - 1] + [frame[|frame| - 1]];
      assert Pack(u) == frame[..|frame| - 1] + [EOT];
    }
  }

  /** What a connection carries when these messages were appended to its writer in this order. */
  function Stream(ms: seq<Msg>): seq<Byte>
    requires AllSized(ms)
  {
    if ms == [] then [] else Stream(ms[..|ms| - 1]) + Pack(ms[|ms| - 1])
  }

  /** The callback restores the delimiter that the reader dropped, then unpacks. */
  function Delivered(frames: seq<seq<Byte>>): (ms: seq<Msg>)
    ensures |ms| == |frames|
  {
    seq(|frames|, i requires 0 <= i < |frames| => Unpack(frames[i] + [EOT]))
  }

  lemma DeliveredAppend(a: seq<seq<Byte>>, b: seq<seq<Byte>>)
    ensures Delivered(a + b) == Delivered(a) + Delivered(b)
  {
  }

  lemma StreamSnoc(ms: seq<Msg>, m: Msg)
    requires Sized(m) && AllSized(ms)
    ensures AllSized(ms + [m])
    ensures Stream(ms + [m]) == Stream(ms) + Pack(m)
  {
    assert (ms + [m])[..|ms|] == ms;
  }

  lemma OneDelivered(content: seq<Byte>)
    requires EOT !in content
    ensures Feed([], content + [EOT], EOT) == Fed([content], [])
    ensures var got := Delivered(Feed([], content + [EOT], EOT).frames);
            |got| == 1 && got[0] == Unpack(content + [EOT]) && got[0].id + got[0].body == content
  {
    FeedSnoc([], content, EOT, EOT);
    FeedIsFields([], content, EOT);
    CountZero(content, EOT);
    var fed := Feed([], content, EOT);
    assert fed.frames + [fed.residue] == [fed.residue];
    assert [] + content == content;
    var u := Unpack(content + [EOT]);
    assert u.id + u.body == content;
  }

  /** One frame fed to an empty reader: it emits as many frames as there are delimiters, and keeps nothing. */
  lemma FeedFrame(m: Msg)
    requires Sized(m)
    ensures var r := Feed([], Pack(m), EOT);
            && r.residue == []
            && |r.frames| == Count(m.id + m.body, EOT) + 1
            && (Clean(m) ==> r.frames == [m.id + m.body])
  {
    var content := m.id + m.body;
    assert m.id[..ID_SIZE] == m.id;
    assert Pack(m) == content + [EOT];
    FeedSnoc([], content, EOT, EOT);
    FeedIsFields([], content, EOT);
    if Clean(m) {
      OneDelivered(content);
    }
  }

  lemma FeedPacked(m: Msg)
    requires Sized(m)
    ensures var r := Feed([], Pack(m), EOT);
            && r.residue == []
            && |r.frames| >= 1
            && (!Clean(m) ==> |r.frames| > 1)
            && (Clean(m) ==> Delivered(r.frames) == [m])
  {
    FeedFrame(m);
    if !Clean(m) {
      CountZero(m.id + m.body, EOT);
    } else {
      assert m.id + m.body + [EOT] == Pack(m) by {
        assert m.id[..ID_SIZE] == m.id;
      }
      PackUnpack(m, []);
    }
  }

  /** Every stream leaves the reader empty and yields at least a frame for each message; a clean one yields these. */
  lemma {:induction false} FeedStream(ms: seq<Msg>)
    requires AllSized(ms)
    ensures var r := Feed([], Stream(ms), EOT);
            && r.residue == []
            && |r.frames| >= |ms|
            && (!AllClean(ms) ==> |r.frames| > |ms|)
            && (AllClean(ms) ==> Delivered(r.frames) == ms)
  {
    if ms != [] {
      var init, last := ms[..|ms| - 1], ms[|ms| - 1];
      assert ms == init + [last];
      FeedStream(init);
      FeedPacked(last);
      FeedAppend([], Stream(init), Pack(last), EOT);
      DeliveredAppend(Feed([], Stream(init), EOT).frames, Feed([], Pack(last), EOT).frames);
    }
  }

  /** The receiver of a whole stream gets exactly the messages sent if and only if none contains the delimiter. */
  lemma DeliveryExact(ms: seq<Msg>)
    requires AllSized(ms)
    ensures Delivered(Feed([], Stream(ms), EOT).frames) == ms <==> AllClean(ms)
  {
    FeedStream(ms);
  }

  /** A receiver that has delivered these messages was sent their stream, and a piece of a frame at most besides. */
  lemma DeliveryDetermines(bytes: seq<Byte>, ms: seq<Msg>)
    requires AllSized(ms) && Delivered(Feed([], bytes, EOT).frames) == ms
    ensures AllClean(ms) && bytes == Stream(ms) + Feed([], bytes, EOT).residue
  {
    var fed := Feed([], bytes, EOT);
    FeedIsFields([], bytes, EOT);
    assert forall f :: f in fed.frames ==> f in fed.frames + [fed.residue];
    FramesMakeStream(fed.frames, fed.residue, ms);
    assert [] + bytes == bytes;
  }

  lemma {:induction false} FramesMakeStream(frames: seq<seq<Byte>>, rest: seq<Byte>, ms: seq<Msg>)
    requires AllSized(ms) && AllFree(frames, EOT) && Delivered(frames) == ms
    ensures AllClean(ms) && Join(frames + [rest], EOT) == Stream(ms) + rest
  {
    if frames != [] {
      var n := |frames| - 1;
      var f := frames[n];
      FramesMakeStream(frames[..n], f, ms[..n]);
      assert frames[..n] + [f] == frames;
      JoinSnoc(frames, rest, EOT);
      assert ms[n] == Unpack(f + [EOT]) && f in frames;
      assert ms[n].id + ms[n].body == f;
      assert Pack(ms[n]) == f + [EOT];
    }
  }

  /** Whatever part of a clean stream has arrived, the messages delivered are a prefix of those sent. */
  lemma DeliveryPrefix(bytes: seq<Byte>, ms: seq<Msg>)
    requires AllSized(ms) && AllClean(ms)
    requires IsPrefix(bytes, Stream(ms))
    ensures IsPrefix(Delivered(Feed([], bytes, EOT).frames), ms)
  {
    var rest := Stream(ms)[|bytes|..];
    assert Stream(ms) == bytes + rest;
    FeedAppend([], bytes, rest, EOT);
    FeedStream(ms);
    var part := Feed([], bytes, EOT).frames;
    var all := Feed([], Stream(ms), EOT).frames;
    assert forall i :: 0 <= i < |part| ==> all[i] == part[i];
    assert Delivered(all)[..|part|] == Delivered(part);
  }
}
