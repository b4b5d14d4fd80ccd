/**
 Delimited data, as a value: joining fields, and feeding bytes to a splitter that carries an
 unfinished field from one chunk to the next.
 */
module Fields {
  import opened Bytes

  ghost predicate AllFree(fs: seq<seq<Byte>>, d: Byte) {
    forall f :: f in fs ==> d !in f
  }

  function Join(fs: seq<seq<Byte>>, d: Byte): seq<Byte> {
    if fs == [] then []
    else if |fs| == 1 then fs[0]
    else Join(fs[..|fs| - 1], d) + [d] + fs[|fs| - 1]
  }

  function Count(s: seq<Byte>, d: Byte): nat {
    if s == [] then 0 else Count(s[..|s| - 1], d) + if s[|s| - 1] == d then 1 else 0
  }

  datatype Fed = Fed(frames: seq<seq<Byte>>, residue: seq<Byte>)

  /** What a splitter that carries `buf` emits, and what it carries afterwards, when it is fed `data`. */
  function Feed(buf: seq<Byte>, data: seq<Byte>, d: Byte): Fed {
    if data == [] then Fed([], buf)
    else
      var prev := Feed(buf, data[..|data| - 1], d);
      var c := data[|data| - 1];
      if c == d then Fed(prev.frames + [prev.residue], []) else Fed(prev.frames, prev.residue + [c])
  }

  /** What a splitting of `data` is: no fields for no data, else delimiter-free fields that join to it. */
  ghost predicate IsSplit(data: seq<Byte>, d: Byte, fields: seq<seq<Byte>>) {
    if data == [] then fields == []
    else fields != [] && AllFree(fields, d) && Join(fields, d) == data
  }

  lemma JoinSnoc(fs: seq<seq<Byte>>, x: seq<Byte>, d: Byte)
    requires fs != []
    ensures Join(fs + [x], d) == Join(fs, d) + [d] + x
  {
    assert (fs + [x])[..|fs|] == fs;
  }

  lemma CountSnoc(s: seq<Byte>, c: Byte, d: Byte)
    ensures Count(s + [c], d) == Count(s, d) + if c == d then 1 else 0
  {
    assert (s + [c])[..|s|] == s;
  }

  lemma {:induction false} CountAppend(a: seq<Byte>, b: seq<Byte>, d: Byte)
    ensures Count(a + b, d) == Count(a, d) + Count(b, d)
  {
    if b == [] {
      assert a + b == a;
    } else {
      var n := |b| - 1;
      CountAppend(a, b[..n], d);
      assert a + b == (a + b[..n]) + [b[n]];
      CountSnoc(a + b[..n], b[n], d);
    }
  }

  lemma {:induction false} CountZero(s: seq<Byte>, d: Byte)
    ensures Count(s, d) == 0 <==> d !in s
  {
    if s != [] {
      CountZero(s[..|s| - 1], d);
      assert s == s[..|s| - 1] + [s[|s| - 1]];
    }
  }

  lemma FeedSnoc(buf: seq<Byte>, data: seq<Byte>, c: Byte, d: Byte)
    ensures var prev := Feed(buf, data, d);
            Feed(buf, data + [c], d)
            == if c == d then Fed(prev.frames + [prev.residue], []) else Fed(prev.frames, prev.residue + [c])
  {
    assert (data + [c])[..|data|] == data;
  }

  /** Cutting the data in two and feeding the pieces one after the other changes nothing. */
  lemma {:induction false} FeedAppend(buf: seq<Byte>, a: seq<Byte>, b: seq<Byte>, d: Byte)
    ensures var first := Feed(buf, a, d);
            var second := Feed(first.residue, b, d);
            Feed(buf, a + b, d) == Fed(first.frames + second.frames, second.residue)
  {
    if b == [] {
      assert a + b == a;
    } else {
      var n := |b| - 1;
      FeedAppend(buf, a, b[..n], d);
      assert a + b == (a + b[..n]) + [b[n]];
      FeedSnoc(buf, a + b[..n], b[n], d);
    }
  }

  /** No frame is longer than what was carried and fed. */
  lemma {:induction false} FramesAreShort(buf: seq<Byte>, data: seq<Byte>, d: Byte)
    ensures var r := Feed(buf, data, d);
            && |r.residue| <= |buf| + |data|
            && forall i :: 0 <= i < |r.frames| ==> |r.frames[i]| <= |buf| + |data|
  {
    if data != [] {
      FramesAreShort(buf, data[..|data| - 1], d);
    }
  }

  function Concat(chunks: seq<seq<Byte>>): seq<Byte> {
    if chunks == [] then [] else chunks[0] + Concat(chunks[1..])
  }

  function FeedAll(buf: seq<Byte>, chunks: seq<seq<Byte>>, d: Byte): Fed
    decreases |chunks|
  {
    if chunks == [] then Fed([], buf)
    else
      var first := Feed(buf, chunks[0], d);
      var rest := FeedAll(first.residue, chunks[1..], d);
      Fed(first.frames + rest.frames, rest.residue)
  }

  /** Any cutting of the data into chunks, empty ones included, emits the same frames and carries the same residue. */
  lemma {:induction false} ChunkIndependence(buf: seq<Byte>, chunks: seq<seq<Byte>>, d: Byte)
    ensures FeedAll(buf, chunks, d) == Feed(buf, Concat(chunks), d)
    decreases |chunks|
  {
    if chunks != [] {
      var first := Feed(buf, chunks[0], d);
      ChunkIndependence(first.residue, chunks[1..], d);
      FeedAppend(buf, chunks[0], Concat(chunks[1..]), d);
    }
  }

  /** The frames and the residue are the delimiter-free fields of everything fed, one frame for each delimiter. */
  lemma {:induction false} FeedIsFields(buf: seq<Byte>, data: seq<Byte>, d: Byte)
    requires d !in buf
    ensures var r := Feed(buf, data, d);
            && AllFree(r.frames + [r.residue], d)
            && Join(r.frames + [r.residue], d) == buf + data
            && |r.frames| == Count(data, d)
  {
    var r := Feed(buf, data, d);
    if data != [] {
      var n := |data| - 1;
      var prev := Feed(buf, data[..n], d);
      FeedIsFields(buf, data[..n], d);
      assert data == data[..n] + [data[n]];
      assert forall f :: f in prev.frames + [prev.residue] <==> f in prev.frames || f == prev.residue;
      if data[n] == d {
        JoinSnoc(prev.frames + [prev.residue], [], d);
      } else {
        JoinExtend(prev.frames, prev.residue, [data[n]], d);
      }
    } else {
      assert r.frames + [r.residue] == [buf];
    }
  }

  lemma JoinExtend(fs: seq<seq<Byte>>, x: seq<Byte>, y: seq<Byte>, d: Byte)
    ensures Join(fs + [x + y], d) == Join(fs + [x], d) + y
  {
    if fs != [] {
      JoinSnoc(fs, x + y, d);
      JoinSnoc(fs, x, d);
    }
  }

  lemma {:induction false} JoinCount(fs: seq<seq<Byte>>, d: Byte)
    requires fs != [] && AllFree(fs, d)
    ensures Count(Join(fs, d), d) == |fs| - 1
  {
    var n := |fs| - 1;
    CountZero(fs[n], d);
    if n > 0 {
      JoinCount(fs[..n], d);
      CountSnoc(Join(fs[..n], d), d, d);
      CountAppend(Join(fs[..n], d) + [d], fs[n], d);
    }
  }

  lemma LastField(a: seq<Byte>, x: seq<Byte>, b: seq<Byte>, y: seq<Byte>, d: Byte)
    requires a + [d] + x == b + [d] + y && d !in x && d !in y
    ensures a == b && x == y
  {
    var s := a + [d] + x;
    assert s[|a|] == d && s[|b|] == d;
    assert forall k :: |a| < k < |s| ==> s[k] == x[k - |a| - 1];
    assert forall k :: |b| < k < |s| ==> s[k] == y[k - |b| - 1];
    assert |a| == |b|;
    assert a == s[..|a|] && b == s[..|b|] && x == s[|a| + 1..] && y == s[|b| + 1..];
  }

  /** Only one non-empty list of delimiter-free fields joins to a given string. */
  lemma {:induction false} JoinInjective(fs: seq<seq<Byte>>, gs: seq<seq<Byte>>, d: Byte)
    requires fs != [] && gs != [] && AllFree(fs, d) && AllFree(gs, d)
    requires Join(fs, d) == Join(gs, d)
    ensures fs == gs
  {
    JoinCount(fs, d);
    JoinCount(gs, d);
    var n := |fs| - 1;
    if n > 0 {
      LastField(Join(fs[..n], d), fs[n], Join(gs[..n], d), gs[n], d);
      JoinInjective(fs[..n], gs[..n], d);
      assert fs == fs[..n] + [fs[n]] && gs == gs[..n] + [gs[n]];
    }
  }

  /** The splitting of a string exists only once, and a non-empty string has one field more than delimiters. */
  lemma SplitUnique(data: seq<Byte>, d: Byte, fs: seq<seq<Byte>>, gs: seq<seq<Byte>>)
    requires IsSplit(data, d, fs) && IsSplit(data, d, gs)
    ensures fs == gs
    ensures data != [] ==> |fs| == Count(data, d) + 1
  {
    if data != [] {
      JoinInjective(fs, gs, d);
      JoinCount(fs, d);
    }
  }

  /** Joining undoes splitting, on every string; splitting undoes joining exactly on the lists a splitter can return. */
  lemma SplitJoinInverse(data: seq<Byte>, d: Byte, fs: seq<seq<Byte>>)
    ensures IsSplit(data, d, fs) ==> Join(fs, d) == data
    ensures IsSplit(Join(fs, d), d, fs) <==> AllFree(fs, d) && fs != [[]]
  {
    if AllFree(fs, d) && fs != [[]] && |fs| > 1 {
      assert d in Join(fs, d);
    }
  }

  /** A reader fed a non-empty string holds exactly its splitting: the frames it emitted, then what it still carries. */
  lemma ReaderAgreesWithSplit(chunks: seq<seq<Byte>>, d: Byte, fields: seq<seq<Byte>>)
    requires Concat(chunks) != [] && IsSplit(Concat(chunks), d, fields)
    ensures var r := FeedAll([], chunks, d); r.frames + [r.residue] == fields
  {
    ChunkIndependence([], chunks, d);
    FeedIsFields([], Concat(chunks), d);
    var r := Feed([], Concat(chunks), d);
    assert [] + Concat(chunks) == Concat(chunks);
    SplitUnique(Concat(chunks), d, r.frames + [r.residue], fields);
  }
}
