/**
 Sending to Carbon: what the leader collected is cut into chunks, each chunk's values are written out, and
 every delivery attempt encodes the chunk's lines from the first one on.
 */
module Carbon {
  import opened Metrics

  const SPACE: bv8 := 32
  const NEWLINE: bv8 := 10

  // ---------- chunks ----------

  /** Cuts a list into pieces of `size`, the last one possibly shorter. */
  function Pieces<T>(l: seq<T>, size: nat): seq<seq<T>>
    requires size > 0
  {
    if l == [] then []
    else if |l| <= size then [l]
    else [l[..size]] + Pieces(l[size..], size)
  }

  lemma {:induction false} PiecesJoin<T>(l: seq<T>, size: nat)
    requires size > 0
    ensures Concat(Pieces(l, size)) == l
    decreases |l|
  {
    if l == [] {
    } else if |l| <= size {
      assert [l] == [l] + [] && l + [] == l;
      ConcatHead(l, []);
    } else {
      PiecesJoin(l[size..], size);
      ConcatHead(l[..size], Pieces(l[size..], size));
    }
  }

  lemma OneMorePiece(n: int, k: int, size: int)
    requires (k - 1) * size < n <= k * size
    ensures k * size < n + size <= (k + 1) * size
  {
  }

  lemma {:induction false} PiecesCount<T>(l: seq<T>, size: nat)
    requires size > 0 && l != []
    ensures (|Pieces(l, size)| - 1) * size < |l| <= |Pieces(l, size)| * size
    decreases |l|
  {
    if |l| > size {
      PiecesCount(l[size..], size);
      OneMorePiece(|l| - size, |Pieces(l[size..], size)|, size);
    }
  }

  /** Nothing is lost, repeated or moved, no piece is empty, and there are as few pieces as the size allows. */
  lemma {:induction false} PiecesWhole<T>(l: seq<T>, size: nat)
    requires size > 0
    ensures Concat(Pieces(l, size)) == l
    ensures forall i :: 0 <= i < |Pieces(l, size)| ==> 0 < |Pieces(l, size)[i]| <= size
    ensures forall i :: 0 <= i < |Pieces(l, size)| - 1 ==> |Pieces(l, size)[i]| == size
    ensures l != [] ==> (|Pieces(l, size)| - 1) * size < |l| <= |Pieces(l, size)| * size
    decreases |l|
  {
    PiecesJoin(l, size);
    if l != [] {
      PiecesCount(l, size);
    }
    if |l| > size {
      PiecesWhole(l[size..], size);
    }
  }

  /** The chunk count of the configuration, where zero means one. */
  function Chunks(configured: nat): nat {
    if configured == 0 then 1 else configured
  }

  lemma MulLess(a: int, b: int, s: int)
    requires s > 0 && a * s < b * s
    ensures a < b
  {
    assert (b - a) * s > 0;
  }

  lemma ChunkSize(n: nat, chunks: nat)
    requires chunks > 0
    ensures
      var size := n / chunks;
      && chunks * size <= n < chunks * size + chunks
      && (size > 0 <==> chunks <= n)
  {
    var size, r := n / chunks, n % chunks;
    assert n == chunks * size + r;
    assert size == 0 ==> n == r;
    assert size > 0 ==> chunks * size >= chunks;
  }

  lemma ChunksAtLeast(n: nat, chunks: nat, size: nat, k: int)
    requires chunks * size <= n <= k * size && size > 0
    ensures chunks <= k
  {
    assert (k - chunks) * size >= 0;
    MulLess(chunks - 1, k, size);
  }

  lemma ChunksAtMost(n: nat, chunks: nat, size: nat, k: int)
    requires (k - 1) * size < n < chunks * size + chunks && size > 0 && chunks > 0
    ensures k <= 2 * chunks - 1
  {
    Spare(chunks - 1, size);
    assert (2 * chunks - 1) * size == chunks * size + (chunks - 1) * size;
    MulLess(k - 1, 2 * chunks - 1, size);
  }

  lemma Spare(a: nat, size: nat)
    requires size > 0
    ensures a * size >= a
  {
  }

  /** With k pieces of `size == n / chunks`: at least `chunks`, at most `2 * chunks - 1`. */
  lemma ChunkBounds(n: nat, chunks: nat, k: int)
    requires 0 < chunks <= n
    requires (k - 1) * (n / chunks) < n <= k * (n / chunks)
    ensures chunks <= k <= 2 * chunks - 1
  {
    ChunkSize(n, chunks);
    ChunksAtLeast(n, chunks, n / chunks, k);
    ChunksAtMost(n, chunks, n / chunks, k);
  }

  /** The upper bound is reached: one metric short of two per chunk gives every metric its own piece. */
  lemma {:induction false} SinglePieces<T>(l: seq<T>)
    ensures |Pieces(l, 1)| == |l|
    decreases |l|
  {
    if |l| > 1 {
      SinglePieces(l[1..]);
    }
  }

  lemma ChunkBoundReached<T>(l: seq<T>, chunks: nat)
    requires chunks > 0 && |l| == 2 * chunks - 1
    ensures |l| / chunks == 1 && |Pieces(l, 1)| == 2 * chunks - 1
  {
    ChunkSize(|l|, chunks);
    var size := |l| / chunks;
    assert size >= 2 ==> chunks * size >= chunks * 2;
    assert size == 1;
    SinglePieces(l);
  }

  method CutUp<T>(l: seq<T>, size: nat) returns (pieces: seq<seq<T>>)
    requires size > 0
    ensures pieces == Pieces(l, size)
  {
    pieces := [];
    var rest := l;
    while rest != []
      invariant Pieces(l, size) == pieces + Pieces(rest, size)
      decreases |rest|
    {
      var n := if size <= |rest| then size else |rest|;
      PiecesStep(rest, size);
      assert pieces + ([rest[..n]] + Pieces(rest[n..], size)) == (pieces + [rest[..n]]) + Pieces(rest[n..], size);
      pieces := pieces + [rest[..n]];
      rest := rest[n..];
    }
  }

  /**
   The split as the program does it. The slice library rejects a chunk size of zero, which is what fewer
   metrics than chunks come to; then there is no result.
   */
  method SplitMetrics<T>(metrics: seq<T>, configured: nat) returns (r: Option<seq<seq<T>>>)
    ensures r.Some? <==> metrics != [] && configured <= |metrics|
    ensures r.Some? ==> Concat(r.value) == metrics && forall i :: 0 <= i < |r.value| ==> r.value[i] != []
    ensures r.Some? && configured == 0 ==> r.value == [metrics]
    ensures r.Some? && configured > 0 ==>
      && configured <= |r.value| <= 2 * configured - 1
      && forall i :: 0 <= i < |r.value| - 1 ==> |r.value[i]| == |metrics| / configured
  {
    var chunks := Chunks(configured);
    var size := |metrics| / chunks;
    ChunkSize(|metrics|, chunks);
    if size == 0 {
      return None;
    }
    var pieces := CutUp(metrics, size);
    PiecesWhole(metrics, size);
    ChunkBounds(|metrics|, chunks, |pieces|);
    r := Some(pieces);
  }

  lemma PiecesStep<T>(l: seq<T>, size: nat)
    requires size > 0 && l != []
    ensures
      var n := if size <= |l| then size else |l|;
      Pieces(l, size) == [l[..n]] + Pieces(l[n..], size)
  {
    if |l| <= size {
      assert l[..|l|] == l && l[|l|..] == [];
    }
  }

  // ---------- writing values ----------

  datatype Line = Line(name: Bytes, value: Bytes, ts: Bytes)

  /** The text of a number is never empty. */
  type Text = b: Bytes | b != [] witness [48]

  datatype Item = Item(name: Bytes, text: Text)

  /** The buffer for the values of a chunk has this much room for each of them, and is never enlarged. */
  const ROOM_EACH: nat := 200

  function TextLength(items: seq<Item>): nat {
    if items == [] then 0 else TextLength(Front(items)) + |Last(items).text|
  }

  /**
   Writes the values of a chunk into one buffer. A whole value is taken out of it together with the room it used;
   one that does not fit leaves what did fit behind, and the buffer full. So the lines are those of the longest
   beginning of the chunk whose texts fit together, each with its own text, and all the rest are errors.
   */
  method WriteValues(items: seq<Item>, ts: Bytes) returns (lines: seq<Line>, errors: nat)
    ensures |lines| + errors == |items|
    ensures forall i :: 0 <= i < |lines| ==> lines[i] == Line(items[i].name, items[i].text, ts)
    ensures TextLength(items[..|lines|]) <= 200 * |items|
    ensures errors > 0 ==> TextLength(items[..|lines| + 1]) > 200 * |items|
    ensures errors == 0 <==> TextLength(items) <= 200 * |items|
  {
    lines, errors := [], 0;
    var buf: Bytes := [];
    var room: nat := ROOM_EACH * |items|;
    for i := 0 to |items|
      invariant |lines| + errors == i
      invariant forall j :: 0 <= j < |lines| ==> lines[j] == Line(items[j].name, items[j].text, ts)
      invariant errors == 0 ==> buf == [] && TextLength(items[..i]) + room == ROOM_EACH * |items|
      invariant errors > 0 ==> room == 0
      invariant errors > 0 ==> TextLength(items[..|lines|]) <= ROOM_EACH * |items| < TextLength(items[..|lines| + 1])
    {
      assert Front(items[..i + 1]) == items[..i];
      var text: Bytes := items[i].text;
      if |text| <= room {
        buf, room := buf + text, room - |text|;
        lines := lines + [Line(items[i].name, buf, ts)];
        buf := [];
      } else {
        buf, room := buf + text[..room], 0;
        errors := errors + 1;
      }
    }
    assert items[..|items|] == items;
    assert errors == 0 ==> items[..|lines|] == items;
    if errors > 0 {
      LongerText(items, |lines| + 1);
    }
  }

  lemma {:induction false} LongerText(items: seq<Item>, n: nat)
    requires n <= |items|
    ensures TextLength(items[..n]) <= TextLength(items)
  {
    if n == |items| {
      assert items[..n] == items;
    } else {
      LongerText(Front(items), n);
      assert Front(items)[..n] == items[..n];
    }
  }

  /** So a chunk of values no longer than their share of the room loses none. */
  lemma {:induction false} ShortTextsFit(items: seq<Item>)
    requires forall i :: 0 <= i < |items| ==> |items[i].text| <= 200
    ensures TextLength(items) <= 200 * |items|
  {
    if items != [] {
      ShortTextsFit(Front(items));
    }
  }

  // ---------- the line protocol ----------

  function Encode(l: Line): Bytes {
    l.name + [SPACE] + l.value + [SPACE] + l.ts + [NEWLINE]
  }

  function EncodeAll(ls: seq<Line>): Bytes {
    if ls == [] then [] else Encode(ls[0]) + EncodeAll(ls[1..])
  }

  /** Two lines, byte by byte: a 1 5 and b 2 5, with byte 32 between the fields and byte 10 at the end. */
  lemma EncodedLines()
    ensures EncodeAll([Line([97], [49], [53]), Line([98], [50], [53])])
         == [97, 32, 49, 32, 53, 10, 98, 32, 50, 32, 53, 10]
  {
    var a, b := Line([97], [49], [53]), Line([98], [50], [53]);
    assert [a, b][1..] == [b] && [b][1..] == [];
    assert EncodeAll([b]) == Encode(b) + EncodeAll([]) == Encode(b);
  }

  lemma {:induction false} EncodeAppend(ls: seq<Line>, l: Line)
    ensures EncodeAll(ls + [l]) == EncodeAll(ls) + Encode(l)
    decreases |ls|
  {
    if ls == [] {
      assert ([] + [l])[1..] == [];
      assert Encode(l) + [] == Encode(l);
    } else {
      EncodeAppend(ls[1..], l);
      assert (ls + [l])[1..] == ls[1..] + [l];
      assert Encode(ls[0]) + (EncodeAll(ls[1..]) + Encode(l)) == (Encode(ls[0]) + EncodeAll(ls[1..])) + Encode(l);
    }
  }

  /** An iterator over a shared list. */
  class SharedIter<T> {
    const inner: seq<T>
    var current: nat

    constructor (inner: seq<T>)
      ensures this.inner == inner && current == 0
    {
      this.inner, current := inner, 0;
    }

    method Next() returns (n: Option<T>)
      modifies this
      ensures n == if old(current) < |inner| then Some(inner[old(current)]) else None
      ensures current == old(current) + 1
    {
      n := if current < |inner| then Some(inner[current]) else None;
      current := current + 1;
    }
  }

  /** One delivery attempt. Each takes a new iterator, so each emits the whole list from its first line. */
  method Attempt(metrics: seq<Line>) returns (buf: Bytes)
    ensures buf == EncodeAll(metrics)
  {
    var iter := new SharedIter(metrics);
    buf := [];
    var item := iter.Next();
    while item.Some?
      invariant 0 < iter.current && iter.inner == metrics
      invariant item == if iter.current - 1 < |metrics| then Some(metrics[iter.current - 1]) else None
      invariant iter.current - 1 <= |metrics|
      invariant buf == EncodeAll(metrics[..iter.current - 1])
      decreases |metrics| + 1 - iter.current
    {
      assert metrics[..iter.current] == metrics[..iter.current - 1] + [item.value];
      EncodeAppend(metrics[..iter.current - 1], item.value);
      buf := buf + Encode(item.value);
      item := iter.Next();
    }
    assert metrics[..|metrics|] == metrics;
  }

  /** Splits at the first `stop`. */
  function Cut(b: Bytes, stop: bv8): Option<(Bytes, Bytes)> {
    if b == [] then None
    else if b[0] == stop then Some(([], b[1..]))
    else
      var rest := Cut(b[1..], stop);
      if rest.None? then None else Some(([b[0]] + rest.value.0, rest.value.1))
  }

  /** A reader of the protocol: name to the first space, value to the next, time to the end of line. */
  function Decode(b: Bytes): Option<(Line, Bytes)> {
    var name := Cut(b, SPACE);
    if name.None? then None else
    var value := Cut(name.value.1, SPACE);
    if value.None? then None else
    var ts := Cut(value.value.1, NEWLINE);
    if ts.None? then None else
    Some((Line(name.value.0, value.value.0, ts.value.0), ts.value.1))
  }

  lemma {:induction false} CutShrinks(b: Bytes, stop: bv8)
    ensures Cut(b, stop).Some? ==> |Cut(b, stop).value.1| < |b| && stop !in Cut(b, stop).value.0
  {
    if b != [] && b[0] != stop {
      CutShrinks(b[1..], stop);
    }
  }

  lemma DecodeShrinks(b: Bytes)
    ensures Decode(b).Some? ==> |Decode(b).value.1| < |b| && Clean(Decode(b).value.0)
  {
    CutShrinks(b, SPACE);
    var name := Cut(b, SPACE);
    if name.Some? {
      CutShrinks(name.value.1, SPACE);
      var value := Cut(name.value.1, SPACE);
      if value.Some? {
        CutShrinks(value.value.1, NEWLINE);
      }
    }
  }

  function DecodeAll(b: Bytes): Option<seq<Line>>
    decreases |b|
  {
    if b == [] then Some([])
    else
      DecodeShrinks(b);
      var first := Decode(b);
      if first.None? then None
      else
        var rest := DecodeAll(first.value.1);
        if rest.None? then None else Some([first.value.0] + rest.value)
  }

  /** No space inside the name or the value, no line end inside the time. */
  predicate Clean(l: Line) {
    SPACE !in l.name && SPACE !in l.value && NEWLINE !in l.ts
  }

  lemma {:induction false} CutAt(a: Bytes, stop: bv8, rest: Bytes)
    requires stop !in a
    ensures Cut(a + [stop] + rest, stop) == Some((a, rest))
  {
    var b := a + [stop] + rest;
    if a == [] {
      assert b[1..] == rest;
    } else {
      CutAt(a[1..], stop, rest);
      assert b[1..] == a[1..] + [stop] + rest;
      assert [a[0]] + a[1..] == a;
    }
  }

  lemma DecodeEncode(l: Line, rest: Bytes)
    requires Clean(l)
    ensures Decode(Encode(l) + rest) == Some((l, rest))
  {
    var afterName := l.value + [SPACE] + (l.ts + [NEWLINE] + rest);
    var afterValue := l.ts + [NEWLINE] + rest;
    assert Encode(l) + rest == l.name + [SPACE] + afterName;
    CutAt(l.name, SPACE, afterName);
    CutAt(l.value, SPACE, afterValue);
    CutAt(l.ts, NEWLINE, rest);
  }

  lemma {:induction false} CleanRoundTrip(ls: seq<Line>)
    requires forall i :: 0 <= i < |ls| ==> Clean(ls[i])
    ensures DecodeAll(EncodeAll(ls)) == Some(ls)
    decreases |ls|
  {
    if ls != [] {
      CleanRoundTrip(ls[1..]);
      DecodeEncode(ls[0], EncodeAll(ls[1..]));
      assert [ls[0]] + ls[1..] == ls;
    }
  }

  lemma {:induction false} DecodedIsClean(b: Bytes)
    ensures DecodeAll(b).Some? ==> forall i :: 0 <= i < |DecodeAll(b).value| ==> Clean(DecodeAll(b).value[i])
    decreases |b|
  {
    if b != [] {
      DecodeShrinks(b);
      if Decode(b).Some? {
        DecodedIsClean(Decode(b).value.1);
      }
    }
  }

  /** A reader gets back the very list that was sent if and only if every line is clean. */
  lemma RoundTripIff(ls: seq<Line>)
    ensures DecodeAll(EncodeAll(ls)) == Some(ls) <==> forall i :: 0 <= i < |ls| ==> Clean(ls[i])
  {
    DecodedIsClean(EncodeAll(ls));
    if forall i :: 0 <= i < |ls| ==> Clean(ls[i]) {
      CleanRoundTrip(ls);
    }
  }

  // ---------- a reader that works by lines ----------

  /** Takes the bytes up to the first line end, then the name and the value out of those; the time is what is left. */
  function DecodeLine(b: Bytes): Option<(Line, Bytes)> {
    var line := Cut(b, NEWLINE);
    if line.None? then None else
    var name := Cut(line.value.0, SPACE);
    if name.None? then None else
    var value := Cut(name.value.1, SPACE);
    if value.None? then None else
    Some((Line(name.value.0, value.value.0, value.value.1), line.value.1))
  }

  /** No line end anywhere, and no space inside the name or the value. */
  predicate CleanLine(l: Line) {
    Clean(l) && NEWLINE !in l.name && NEWLINE !in l.value
  }

  lemma {:induction false} CutParts(b: Bytes, stop: bv8)
    ensures Cut(b, stop).Some? ==> b == Cut(b, stop).value.0 + [stop] + Cut(b, stop).value.1
  {
    if b != [] && b[0] != stop {
      CutParts(b[1..], stop);
      assert b == [b[0]] + b[1..];
    }
  }

  lemma DecodeLineShrinks(b: Bytes)
    ensures DecodeLine(b).Some? ==> |DecodeLine(b).value.1| < |b| && CleanLine(DecodeLine(b).value.0)
  {
    CutShrinks(b, NEWLINE);
    var line := Cut(b, NEWLINE);
    if line.Some? {
      CutShrinks(line.value.0, SPACE);
      CutParts(line.value.0, SPACE);
      var name := Cut(line.value.0, SPACE);
      if name.Some? {
        CutShrinks(name.value.1, SPACE);
        CutParts(name.value.1, SPACE);
      }
    }
  }

  function DecodeLines(b: Bytes): Option<seq<Line>>
    decreases |b|
  {
    if b == [] then Some([])
    else
      DecodeLineShrinks(b);
      var first := DecodeLine(b);
      if first.None? then None
      else
        var rest := DecodeLines(first.value.1);
        if rest.None? then None else Some([first.value.0] + rest.value)
  }

  lemma DecodeLineEncode(l: Line, rest: Bytes)
    requires CleanLine(l)
    ensures DecodeLine(Encode(l) + rest) == Some((l, rest))
  {
    var afterName := l.value + [SPACE] + l.ts;
    var line := l.name + [SPACE] + afterName;
    assert Encode(l) + rest == line + [NEWLINE] + rest;
    CutAt(line, NEWLINE, rest);
    CutAt(l.name, SPACE, afterName);
    CutAt(l.value, SPACE, l.ts);
  }

  lemma {:induction false} CleanLinesRoundTrip(ls: seq<Line>)
    requires forall i :: 0 <= i < |ls| ==> CleanLine(ls[i])
    ensures DecodeLines(EncodeAll(ls)) == Some(ls)
    decreases |ls|
  {
    if ls != [] {
      CleanLinesRoundTrip(ls[1..]);
      DecodeLineEncode(ls[0], EncodeAll(ls[1..]));
      assert [ls[0]] + ls[1..] == ls;
    }
  }

  lemma {:induction false} DecodedLinesClean(b: Bytes)
    ensures DecodeLines(b).Some? ==> forall i :: 0 <= i < |DecodeLines(b).value| ==> CleanLine(DecodeLines(b).value[i])
    decreases |b|
  {
    if b != [] {
      DecodeLineShrinks(b);
      if DecodeLine(b).Some? {
        DecodedLinesClean(DecodeLine(b).value.1);
      }
    }
  }

  /** A reader that works by lines does so if and only if, besides, no name or value holds a line end. */
  lemma RoundTripByLinesIff(ls: seq<Line>)
    ensures DecodeLines(EncodeAll(ls)) == Some(ls) <==> forall i :: 0 <= i < |ls| ==> CleanLine(ls[i])
  {
    DecodedLinesClean(EncodeAll(ls));
    if forall i :: 0 <= i < |ls| ==> CleanLine(ls[i]) {
      CleanLinesRoundTrip(ls);
    }
  }

  // ---------- what the bytes determine ----------

  /** The bytes of clean lines determine the lines. */
  lemma UniquelyDecodable(a: seq<Line>, b: seq<Line>)
    requires forall i :: 0 <= i < |a| ==> Clean(a[i])
    requires forall i :: 0 <= i < |b| ==> Clean(b[i])
    requires EncodeAll(a) == EncodeAll(b)
    ensures a == b
  {
    CleanRoundTrip(a);
    CleanRoundTrip(b);
  }

  /** A space in a name makes two different lines look alike. */
  lemma SpaceIsAmbiguous(a: Bytes, b: Bytes, c: Bytes, d: Bytes)
    ensures Encode(Line(a + [SPACE] + b, c, d)) == Encode(Line(a, b, c + [SPACE] + d))
    ensures Line(a + [SPACE] + b, c, d) != Line(a, b, c + [SPACE] + d)
  {
    assert |a + [SPACE] + b| != |a|;
    assert a + [SPACE] + b + [SPACE] + c + [SPACE] + d + [NEWLINE]
        == a + [SPACE] + b + [SPACE] + (c + [SPACE] + d) + [NEWLINE];
  }
}
