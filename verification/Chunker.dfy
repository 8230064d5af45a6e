/** Splitting a document into overlapping windows of runes. */
module Chunker {
  import opened Sequences

  datatype Document = Document(id: string, sourcePath: string, title: string, metadata: map<string, string>, content: string)

  datatype Chunk = Chunk(
    chunkId: string, parentId: string, sourcePath: string, title: string, metadata: map<string, string>,
    text: string, start: nat, end: nat)

  datatype SetupError = InvalidSize | InvalidOverlap | OverlapTooLarge

  datatype Setup = Made(chunker: Windows) | Refused(error: SetupError)

  datatype Windows = Windows(size: int, overlap: int) {
    predicate Valid() {
      0 <= overlap < size
    }

    function Step(): int {
      size - overlap
    }
  }

  /** A chunker is made exactly for windows that advance. */
  function NewChunker(size: int, overlap: int): (r: Setup)
    ensures r.Made? <==> Windows(size, overlap).Valid()
    ensures r.Made? ==> r.chunker == Windows(size, overlap)
    ensures r == Refused(InvalidSize) <==> size <= 0
    ensures r == Refused(OverlapTooLarge) <==> 0 < size <= overlap
  {
    if size <= 0 then Refused(InvalidSize)
    else if overlap < 0 then Refused(InvalidOverlap)
    else if overlap >= size then Refused(OverlapTooLarge)
    else Made(Windows(size, overlap))
  }

  // ---------------------------------------------------------------- identifiers

  function Digit(d: nat): char
    requires d < 10
  {
    '0' + d as char
  }

  function Decimal(n: nat): (s: string)
    ensures s != "" && forall i :: 0 <= i < |s| ==> '0' <= s[i] <= '9'
  {
    if n < 10 then [Digit(n)] else Decimal(n / 10) + [Digit(n % 10)]
  }

  /** Different numbers are written differently. */
  lemma {:induction false} DecimalInjective(a: nat, b: nat)
    requires Decimal(a) == Decimal(b)
    ensures a == b
  {
    var s := Decimal(a);
    assert s[|s| - 1] == Digit(a % 10) == Digit(b % 10);
    if a >= 10 && b >= 10 {
      assert s[..|s| - 1] == Decimal(a / 10) == Decimal(b / 10);
      DecimalInjective(a / 10, b / 10);
    }
  }

  function ChunkId(docId: string, index: nat): string {
    docId + ":" + Decimal(index)
  }

  /** An identifier determines both the document and the place in it, whatever the document is called. */
  lemma ChunkIdInjective(docA: string, a: nat, docB: string, b: nat)
    ensures ChunkId(docA, a) == ChunkId(docB, b) <==> docA == docB && a == b
  {
    if ChunkId(docA, a) == ChunkId(docB, b) {
      LastColon(docA, Decimal(a), docB, Decimal(b));
      DecimalInjective(a, b);
    }
  }

  lemma LastColon(a: string, x: string, b: string, y: string)
    requires a + ":" + x == b + ":" + y
    requires ':' !in x && ':' !in y
    ensures a == b && x == y
  {
    NoColonBeyond(a, x, b, y);
    NoColonBeyond(b, y, a, x);
    var s := a + ":" + x;
    assert s[..|a|] == a && s[..|a|] == b;
    assert s[|a| + 1..] == x && s[|a| + 1..] == y;
  }

  lemma NoColonBeyond(a: string, x: string, b: string, y: string)
    requires a + ":" + x == b + ":" + y
    requires ':' !in x
    ensures |b| <= |a|
  {
    var s := a + ":" + x;
    assert s[|b|] == ':' by { assert s == b + ":" + y; }
    assert forall i :: |a| < i < |s| ==> s[i] == x[i - |a| - 1];
  }

  // ---------------------------------------------------------------- the windows

  function CeilDiv(a: int, b: int): int
    requires b > 0
  {
    (a + b - 1) / b
  }

  /** How many windows cover `n` runes. */
  function Number(w: Windows, n: nat): (k: nat)
    requires w.Valid()
  {
    if n == 0 then 0
    else if n <= w.size then 1
    else
      CeilDivBounds(n - w.size, w.Step(), 0);
      1 + CeilDiv(n - w.size, w.Step())
  }

  function WindowAt(w: Windows, doc: Document, i: nat): Chunk
    requires w.Valid() && i * w.Step() <= |doc.content|
  {
    var start := i * w.Step();
    var end := Min(start + w.size, |doc.content|);
    Chunk(ChunkId(doc.id, i), doc.id, doc.sourcePath, doc.title, doc.metadata, doc.content[start..end], start, end)
  }

  /** `CeilDiv` is the least number of steps that covers `a`. */
  lemma CeilDivBounds(a: int, b: int, k: int)
    requires b > 0
    ensures CeilDiv(a, b) <= k <==> a <= k * b
    ensures a >= 0 ==> CeilDiv(a, b) >= 0
  {
    var q := CeilDiv(a, b);
    DivMod(a + b - 1, b);
    if q <= k {
      Monotone(q, k, b);
    } else {
      Monotone(k, q - 1, b);
      assert (q - 1) * b == q * b - b;
    }
    if a >= 0 && q < 0 {
      Monotone(q, -1, b);
    }
  }

  lemma DivMod(a: int, b: int)
    requires b > 0
    ensures a / b * b <= a < a / b * b + b
  {
  }

  lemma Monotone(x: int, y: int, b: int)
    requires x <= y && b > 0
    ensures x * b <= y * b
  {
  }

  /** Window `i` is the last one exactly when it reaches the end. */
  lemma LastReachesEnd(w: Windows, n: nat, i: nat)
    requires w.Valid() && n > 0
    ensures i * w.Step() + w.size >= n <==> i + 1 >= Number(w, n)
  {
    if n <= w.size {
      assert i * w.Step() >= 0;
    } else {
      CeilDivBounds(n - w.size, w.Step(), i);
    }
  }

  /** Every window starts inside the document, and all but the first beyond the overlap they share. */
  lemma StartsInside(w: Windows, n: nat, i: nat)
    requires w.Valid() && i < Number(w, n)
    ensures 0 <= i * w.Step() < n
    ensures i > 0 ==> i * w.Step() + w.overlap < n
  {
    if i > 0 {
      LastReachesEnd(w, n, i - 1);
      assert (i - 1) * w.Step() + w.Step() == i * w.Step();
      assert (i - 1) * w.Step() >= 0;
    }
  }

  ghost predicate IsSplit(w: Windows, doc: Document, chunks: seq<Chunk>)
    requires w.Valid()
  {
    && |chunks| == Number(w, |doc.content|)
    && forall i :: 0 <= i < |chunks| ==> IsWindow(w, doc, i, chunks[i])
  }

  ghost predicate IsWindow(w: Windows, doc: Document, i: nat, c: Chunk)
    requires w.Valid()
  {
    i * w.Step() <= |doc.content| && c == WindowAt(w, doc, i)
  }

  method Split(w: Windows, doc: Document) returns (chunks: seq<Chunk>)
    requires w.Valid()
    ensures IsSplit(w, doc, chunks)
  {
    var n := |doc.content|;
    if n == 0 {
      return [];
    }
    var step := w.Step();
    var start := 0;
    chunks := [];
    while start < n
      invariant start == |chunks| * step && |chunks| < Number(w, n) && start < n
      invariant forall i :: 0 <= i < |chunks| ==> IsWindow(w, doc, i, chunks[i])
      decreases n - start
    {
      var end := Min(start + w.size, n);
      var next := Chunk(ChunkId(doc.id, |chunks|), doc.id, doc.sourcePath, doc.title, doc.metadata, doc.content[start..end], start, end);
      assert IsWindow(w, doc, |chunks|, next);
      LastReachesEnd(w, n, |chunks|);
      chunks := chunks + [next];
      if end == n {
        break;
      }
      StartsInside(w, n, |chunks|);
      assert start + step == |chunks| * step;
      start := start + step;
    }
  }

  // ---------------------------------------------------------------- what a split keeps

  /** Every chunk names its document, its number and its place, and holds the text of that place. */
  lemma ChunksNameTheirDocument(w: Windows, doc: Document, chunks: seq<Chunk>, i: nat)
    requires w.Valid() && IsSplit(w, doc, chunks) && i < |chunks|
    ensures var c := chunks[i];
            && c.chunkId == doc.id + ":" + Decimal(i) && c.parentId == doc.id
            && c.sourcePath == doc.sourcePath && c.title == doc.title && c.metadata == doc.metadata
            && c.start == i * (w.size - w.overlap) && c.start < c.end <= |doc.content|
            && (c.end == c.start + w.size || (i == |chunks| - 1 && c.end == |doc.content|))
            && c.text == doc.content[c.start..c.end]
  {
    assert IsWindow(w, doc, i, chunks[i]);
    StartsInside(w, |doc.content|, i);
    LastReachesEnd(w, |doc.content|, i);
  }

  /** The windows' texts put together, without what each later one shares with the one before. */
  function Joined(chunks: seq<Chunk>, overlap: nat): string {
    if chunks == [] then ""
    else
      var last := chunks[|chunks| - 1].text;
      if |chunks| == 1 then last
      else Joined(chunks[..|chunks| - 1], overlap) + (if overlap <= |last| then last[overlap..] else "")
  }

  /** Nothing of the document is lost or doubled. */
  lemma SplitIsLossless(w: Windows, doc: Document, chunks: seq<Chunk>)
    requires w.Valid() && IsSplit(w, doc, chunks)
    ensures Joined(chunks, w.overlap) == doc.content
  {
    var n := |doc.content|;
    if n > 0 {
      LastReachesEnd(w, n, |chunks| - 1);
      JoinedPrefix(w, doc, chunks, |chunks|);
      assert IsWindow(w, doc, |chunks| - 1, chunks[|chunks| - 1]);
      assert chunks[..|chunks|] == chunks;
      assert doc.content[..n] == doc.content;
    }
  }

  lemma {:induction false} JoinedPrefix(w: Windows, doc: Document, chunks: seq<Chunk>, k: nat)
    requires w.Valid() && IsSplit(w, doc, chunks) && 0 < k <= |chunks|
    ensures chunks[k - 1].end <= |doc.content|
    ensures Joined(chunks[..k], w.overlap) == doc.content[..chunks[k - 1].end]
  {
    if k == 1 {
      assert IsWindow(w, doc, 0, chunks[0]);
      NextStart(0, w.Step());
      assert chunks[..1] == [chunks[0]];
    } else {
      JoinedPrefix(w, doc, chunks, k - 1);
      NeighbourPlaces(w, doc, chunks, k - 2);
      assert chunks[k - 1].text[w.overlap..] == doc.content[chunks[k - 2].end..chunks[k - 1].end] by {
        NeighbourTexts(w, doc, chunks, k - 2);
      }
      JoinedOneMore(chunks, w.overlap, k);
      SliceJoin(doc.content, chunks[k - 2].end, chunks[k - 1].end);
    }
  }

  lemma JoinedOneMore(chunks: seq<Chunk>, overlap: nat, k: nat)
    requires 1 < k <= |chunks| && overlap <= |chunks[k - 1].text|
    ensures Joined(chunks[..k], overlap) == Joined(chunks[..k - 1], overlap) + chunks[k - 1].text[overlap..]
  {
    assert chunks[..k][..k - 1] == chunks[..k - 1];
  }

  lemma SliceJoin(d: string, a: nat, b: nat)
    requires a <= b <= |d|
    ensures d[..a] + d[a..b] == d[..b]
  {
  }

  /** Neighbours share exactly the overlap, in place and in text. */
  lemma Neighbours(w: Windows, doc: Document, chunks: seq<Chunk>, i: nat)
    requires w.Valid() && IsSplit(w, doc, chunks) && i + 1 < |chunks|
    ensures chunks[i].end - chunks[i + 1].start == w.overlap
    ensures |chunks[i].text| == w.size && |chunks[i + 1].text| > w.overlap
    ensures chunks[i].text[w.size - w.overlap..] == chunks[i + 1].text[..w.overlap]
  {
    NeighbourPlaces(w, doc, chunks, i);
    NeighbourTexts(w, doc, chunks, i);
    var a, b := chunks[i], chunks[i + 1];
    SliceParts(doc.content, a.start, b.start, a.end, b.end);
    assert w.size - w.overlap == b.start - a.start && w.overlap == a.end - b.start;
  }

  lemma SliceParts(d: string, a: nat, b: nat, c: nat, e: nat)
    requires a <= b <= c <= e <= |d|
    ensures d[a..c][b - a..] == d[b..c] == d[b..e][..c - b]
  {
  }

  lemma NeighbourPlaces(w: Windows, doc: Document, chunks: seq<Chunk>, i: nat)
    requires w.Valid() && IsSplit(w, doc, chunks) && i + 1 < |chunks|
    ensures 0 <= chunks[i].start <= chunks[i + 1].start <= chunks[i].end < chunks[i + 1].end <= |doc.content|
    ensures chunks[i].end - chunks[i].start == w.size && chunks[i].end - chunks[i + 1].start == w.overlap
  {
    var step, n := w.Step(), |doc.content|;
    assert IsWindow(w, doc, i, chunks[i]) && IsWindow(w, doc, i + 1, chunks[i + 1]);
    assert i * step + w.size < n by { LastReachesEnd(w, n, i); }
    assert (i + 1) * step + w.overlap < n by { StartsInside(w, n, i + 1); }
    NextStart(i, step);
  }

  lemma NextStart(i: nat, step: nat)
    ensures 0 <= i * step && (i + 1) * step == i * step + step
  {
  }

  lemma NeighbourTexts(w: Windows, doc: Document, chunks: seq<Chunk>, i: nat)
    requires w.Valid() && IsSplit(w, doc, chunks) && i + 1 < |chunks|
    ensures forall j :: i <= j <= i + 1 ==> 0 <= chunks[j].start <= chunks[j].end <= |doc.content|
    ensures forall j :: i <= j <= i + 1 ==> chunks[j].text == doc.content[chunks[j].start..chunks[j].end]
  {
    forall j | i <= j <= i + 1
      ensures 0 <= chunks[j].start <= chunks[j].end <= |doc.content|
      ensures chunks[j].text == doc.content[chunks[j].start..chunks[j].end]
    {
      assert IsWindow(w, doc, j, chunks[j]);
      NextStart(j, w.Step());
    }
  }

  /** The chunks of two documents never share an identifier unless the documents do. */
  lemma IdsAreDistinct(w: Windows, doc: Document, chunks: seq<Chunk>, other: Document, others: seq<Chunk>, i: nat, j: nat)
    requires w.Valid() && IsSplit(w, doc, chunks) && IsSplit(w, other, others)
    requires i < |chunks| && j < |others|
    ensures chunks[i].chunkId == others[j].chunkId <==> doc.id == other.id && i == j
  {
    assert IsWindow(w, doc, i, chunks[i]) && IsWindow(w, other, j, others[j]);
    ChunkIdInjective(doc.id, i, other.id, j);
  }

  /** The count: one window, and one more for every further step or part of one. */
  lemma CountOfWindows(w: Windows, n: nat)
    requires w.Valid() && n > 0
    ensures Number(w, n) == 1 + CeilDiv(if n > w.size then n - w.size else 0, w.Step())
    ensures Number(w, n) == 1 || (Number(w, n) - 2) * w.Step() + w.size < n <= (Number(w, n) - 1) * w.Step() + w.size
  {
    var k := Number(w, n);
    if n <= w.size {
      CeilDivBounds(0, w.Step(), 0);
    } else {
      CeilDivBounds(n - w.size, w.Step(), k - 1);
      CeilDivBounds(n - w.size, w.Step(), k - 2);
    }
  }
}
