/** Turning loaded files into one batch of chunk records, and what the store then holds of each file. */
module Ingest {
  import opened Sequences
  import opened Chunker
  import opened ChunkStore
  import opened DirectorySync
  import opened SyncRuns

  /** The embedding service: vectors for some texts, or a failure. */
  type Embedder = seq<string> -> Option<seq<seq<real>>>

  /** What the configured namespace adds to a chunk's metadata. */
  type Tagger = map<string, string> -> map<string, string>

  datatype Ingester = Ingester(windows: Windows, embed: Embedder, tag: Tagger)

  function WindowsOf(w: Windows, doc: Document): (r: seq<Chunk>)
    requires w.Valid()
    ensures IsSplit(w, doc, r)
  {
    var n := Number(w, |doc.content|);
    var r := seq(n, i requires 0 <= i < n => (StartsInside(w, |doc.content|, i); WindowAt(w, doc, i)));
    assert forall i :: 0 <= i < n ==> IsWindow(w, doc, i, r[i]) by {
      forall i | 0 <= i < n ensures IsWindow(w, doc, i, r[i]) {
        StartsInside(w, |doc.content|, i);
      }
    }
    r
  }

  function Texts(chunks: seq<Chunk>): seq<string> {
    seq(|chunks|, i requires 0 <= i < |chunks| => chunks[i].text)
  }

  function RecordOf(tag: Tagger, c: Chunk, embedding: seq<real>): Record {
    Record(c.chunkId, c.parentId, c.sourcePath, c.title, c.text, c.start, c.end, tag(c.metadata), embedding)
  }

  function RecordsOf(tag: Tagger, chunks: seq<Chunk>, vectors: seq<seq<real>>): seq<Record>
    requires |vectors| == |chunks|
  {
    seq(|chunks|, i requires 0 <= i < |chunks| => RecordOf(tag, chunks[i], vectors[i]))
  }

  /** The records of one document, or none when embedding fails or answers for another number of texts. */
  function DocumentRecords(g: Ingester, doc: Document): Option<seq<Record>>
    requires g.windows.Valid()
  {
    var chunks := WindowsOf(g.windows, doc);
    if chunks == [] then Some([])
    else match g.embed(Texts(chunks))
      case None => None
      case Some(vectors) => if |vectors| == |chunks| then Some(RecordsOf(g.tag, chunks, vectors)) else None
  }

  function BatchOf(g: Ingester, loaded: seq<Option<Document>>): Option<seq<Record>>
    requires g.windows.Valid()
  {
    if loaded == [] then Some([])
    else match BatchOf(g, loaded[..|loaded| - 1])
      case None => None
      case Some(batch) => Extended(g, batch, loaded[|loaded| - 1])
  }

  function Extended(g: Ingester, batch: seq<Record>, next: Option<Document>): Option<seq<Record>>
    requires g.windows.Valid()
  {
    match next
    case None => None
    case Some(doc) =>
      match DocumentRecords(g, doc)
      case None => None
      case Some(records) => Some(batch + records)
  }

  /** The import's loop over its files: nothing is written unless every file loads and embeds. */
  method BuildBatch(g: Ingester, loaded: seq<Option<Document>>) returns (batch: Option<seq<Record>>)
    requires g.windows.Valid()
    ensures batch == BatchOf(g, loaded)
  {
    var records := [];
    for k := 0 to |loaded|
      invariant BatchOf(g, loaded[..k]) == Some(records)
    {
      var more := NextRecords(g, loaded[k]);
      Further(g, loaded, k, records);
      if more.None? {
        FailsForGood(g, loaded, k + 1);
        return None;
      }
      records := records + more.value;
    }
    assert loaded[..|loaded|] == loaded;
    return Some(records);
  }

  method NextRecords(g: Ingester, next: Option<Document>) returns (records: Option<seq<Record>>)
    requires g.windows.Valid()
    ensures records == if next.Some? then DocumentRecords(g, next.value) else None
  {
    if next.None? {
      return None;
    }
    var chunks := Split(g.windows, next.value);
    OneSplit(g.windows, next.value, chunks, WindowsOf(g.windows, next.value));
    if chunks == [] {
      return Some([]);
    }
    var vectors := g.embed(Texts(chunks));
    if vectors.None? || |vectors.value| != |chunks| {
      return None;
    }
    records := Some(RecordsOf(g.tag, chunks, vectors.value));
  }

  lemma OneSplit(w: Windows, doc: Document, a: seq<Chunk>, b: seq<Chunk>)
    requires w.Valid() && IsSplit(w, doc, a) && IsSplit(w, doc, b)
    ensures a == b
  {
    forall i | 0 <= i < |a| ensures a[i] == b[i] {
      assert IsWindow(w, doc, i, a[i]) && IsWindow(w, doc, i, b[i]);
    }
  }

  lemma Further(g: Ingester, loaded: seq<Option<Document>>, k: nat, records: seq<Record>)
    requires g.windows.Valid() && k < |loaded| && BatchOf(g, loaded[..k]) == Some(records)
    ensures BatchOf(g, loaded[..k + 1]) == Extended(g, records, loaded[k])
  {
    assert loaded[..k + 1][..k] == loaded[..k];
  }

  lemma {:induction false} FailsForGood(g: Ingester, loaded: seq<Option<Document>>, k: nat)
    requires g.windows.Valid() && k <= |loaded| && BatchOf(g, loaded[..k]).None?
    ensures BatchOf(g, loaded).None?
    decreases |loaded| - k
  {
    if k == |loaded| {
      assert loaded[..k] == loaded;
    } else {
      assert loaded[..k + 1][..k] == loaded[..k];
      FailsForGood(g, loaded, k + 1);
    }
  }

  /** There is no batch exactly when some file cannot be loaded or embedded. */
  lemma {:induction false} BatchFailsExactly(g: Ingester, loaded: seq<Option<Document>>)
    requires g.windows.Valid()
    ensures BatchOf(g, loaded).None? <==> SomeUnusable(g, loaded)
  {
    if loaded != [] {
      var front, last := loaded[..|loaded| - 1], loaded[|loaded| - 1];
      BatchFailsExactly(g, front);
      BatchFailsMore(g, front, last, loaded);
    }
  }

  lemma BatchFailsMore(g: Ingester, front: seq<Option<Document>>, last: Option<Document>, loaded: seq<Option<Document>>)
    requires g.windows.Valid() && loaded == front + [last]
    requires BatchOf(g, front).None? <==> SomeUnusable(g, front)
    ensures BatchOf(g, loaded).None? <==> SomeUnusable(g, loaded)
  {
    SomeUnusableMore(g, front, last, loaded);
    UnusableMeans(g, last);
    assert loaded[..|loaded| - 1] == front;
  }

  ghost predicate SomeUnusable(g: Ingester, loaded: seq<Option<Document>>)
    requires g.windows.Valid()
  {
    exists k :: 0 <= k < |loaded| && Unusable(g, loaded[k])
  }

  lemma SomeUnusableMore(g: Ingester, front: seq<Option<Document>>, last: Option<Document>, loaded: seq<Option<Document>>)
    requires g.windows.Valid() && loaded == front + [last]
    ensures SomeUnusable(g, loaded) <==> SomeUnusable(g, front) || Unusable(g, last)
  {
    assert loaded[|front|] == last && forall k :: 0 <= k < |front| ==> loaded[k] == front[k];
  }

  /** The file did not load, or it has chunks and the embedder failed or did not answer one vector per chunk. */
  ghost predicate Unusable(g: Ingester, next: Option<Document>)
    requires g.windows.Valid()
  {
    next.None? ||
    (next.value.content != "" && exists chunks :: IsSplit(g.windows, next.value, chunks) && Unanswered(g.embed(Texts(chunks)), |chunks|))
  }

  predicate Unanswered(answer: Option<seq<seq<real>>>, n: nat) {
    answer.None? || |answer.value| != n
  }

  lemma UnusableMeans(g: Ingester, next: Option<Document>)
    requires g.windows.Valid()
    ensures Unusable(g, next) <==> next.None? || DocumentRecords(g, next.value).None?
  {
    if next.Some? {
      var chunks := WindowsOf(g.windows, next.value);
      forall other | IsSplit(g.windows, next.value, other) ensures other == chunks {
        OneSplit(g.windows, next.value, other, chunks);
      }
      assert chunks == [] <==> next.value.content == "";
    }
  }

  /** The records of a document are its chunks in order, each with the vector the embedder gave for its own text. */
  lemma RecordsCarryTheirVectors(g: Ingester, doc: Document) returns (chunks: seq<Chunk>)
    requires g.windows.Valid() && DocumentRecords(g, doc).Some?
    ensures IsSplit(g.windows, doc, chunks)
    ensures var records := DocumentRecords(g, doc).value;
            && |records| == |chunks|
            && (chunks != [] ==> g.embed(seq(|chunks|, i requires 0 <= i < |chunks| => chunks[i].text)).Some?)
            && forall i :: 0 <= i < |records| ==>
                 var c, r := chunks[i], records[i];
                 && r.chunkId == c.chunkId && r.parentId == c.parentId && r.sourcePath == c.sourcePath && r.title == c.title
                 && r.text == c.text && r.start == c.start && r.end == c.end && r.metadata == g.tag(c.metadata)
                 && i < |g.embed(Texts(chunks)).value| && r.embedding == g.embed(Texts(chunks)).value[i]
  {
    chunks := WindowsOf(g.windows, doc);
    assert Texts(chunks) == seq(|chunks|, i requires 0 <= i < |chunks| => chunks[i].text);
  }

  // ---------------------------------------------------------------- what the batch holds

  /** The record of window `i` of a document. */
  ghost predicate RecordAt(g: Ingester, doc: Document, i: nat, r: Record)
    requires g.windows.Valid()
  {
    && i < Number(g.windows, |doc.content|)
    && (StartsInside(g.windows, |doc.content|, i); var c := WindowAt(g.windows, doc, i); r == RecordOf(g.tag, c, r.embedding))
  }

  lemma RecordsAreWindows(g: Ingester, doc: Document)
    requires g.windows.Valid() && DocumentRecords(g, doc).Some?
    ensures var records := DocumentRecords(g, doc).value;
            && |records| == Number(g.windows, |doc.content|)
            && forall i :: 0 <= i < |records| ==> RecordAt(g, doc, i, records[i])
  {
    var chunks := WindowsOf(g.windows, doc);
    forall i | 0 <= i < |chunks| ensures chunks[i] == (StartsInside(g.windows, |doc.content|, i); WindowAt(g.windows, doc, i)) {
      assert IsWindow(g.windows, doc, i, chunks[i]);
    }
  }

  ghost predicate IsWindowOf(g: Ingester, loaded: seq<Option<Document>>, r: Record)
    requires g.windows.Valid()
  {
    exists k, i: nat :: 0 <= k < |loaded| && loaded[k].Some? && RecordAt(g, loaded[k].value, i, r)
  }

  ghost predicate HasWindow(g: Ingester, batch: seq<Record>, doc: Document, i: nat)
    requires g.windows.Valid()
  {
    exists r :: r in batch && RecordAt(g, doc, i, r)
  }

  ghost predicate HasWindows(g: Ingester, batch: seq<Record>, doc: Document)
    requires g.windows.Valid()
  {
    forall i: nat :: i < Number(g.windows, |doc.content|) ==> HasWindow(g, batch, doc, i)
  }

  /** Every record of the batch is a window of a loaded document, and every window is there. */
  ghost predicate Describes(g: Ingester, loaded: seq<Option<Document>>, batch: seq<Record>)
    requires g.windows.Valid()
  {
    && (forall r :: r in batch ==> IsWindowOf(g, loaded, r))
    && forall k :: 0 <= k < |loaded| ==> loaded[k].Some? && HasWindows(g, batch, loaded[k].value)
  }

  lemma {:induction false} BatchIsWindows(g: Ingester, loaded: seq<Option<Document>>)
    requires g.windows.Valid() && BatchOf(g, loaded).Some?
    ensures Describes(g, loaded, BatchOf(g, loaded).value)
    decreases |loaded|
  {
    if loaded != [] {
      var n := |loaded| - 1;
      var front := BatchOf(g, loaded[..n]).value;
      var doc := loaded[n].value;
      var records := DocumentRecords(g, doc).value;
      BatchIsWindows(g, loaded[..n]);
      RecordsAreWindows(g, doc);
      forall r | r in front + records ensures IsWindowOf(g, loaded, r) {
        if r in front {
          var k, i: nat :| 0 <= k < n && loaded[..n][k].Some? && RecordAt(g, loaded[..n][k].value, i, r);
          assert RecordAt(g, loaded[k].value, i, r);
        } else {
          var i :| 0 <= i < |records| && records[i] == r;
          assert RecordAt(g, loaded[n].value, i, r);
        }
      }
      forall k | 0 <= k < |loaded| ensures loaded[k].Some? && HasWindows(g, front + records, loaded[k].value) {
        if k < n {
          assert loaded[..n][k] == loaded[k];
          MoreKeepsWindows(g, front, records, loaded[k].value);
        } else {
          OwnWindows(g, front, records, doc);
        }
      }
    }
  }

  lemma MoreKeepsWindows(g: Ingester, front: seq<Record>, records: seq<Record>, doc: Document)
    requires g.windows.Valid() && HasWindows(g, front, doc)
    ensures HasWindows(g, front + records, doc)
  {
    forall i: nat | i < Number(g.windows, |doc.content|) ensures HasWindow(g, front + records, doc, i) {
      assert HasWindow(g, front, doc, i);
      var r :| r in front && RecordAt(g, doc, i, r);
      assert r in front + records;
    }
  }

  lemma OwnWindows(g: Ingester, front: seq<Record>, records: seq<Record>, doc: Document)
    requires g.windows.Valid() && DocumentRecords(g, doc) == Some(records)
    ensures HasWindows(g, front + records, doc)
  {
    RecordsAreWindows(g, doc);
    forall i: nat | i < Number(g.windows, |doc.content|) ensures HasWindow(g, front + records, doc, i) {
      assert records[i] in front + records && RecordAt(g, doc, i, records[i]);
    }
  }

  // ---------------------------------------------------------------- what the store holds after an import

  ghost predicate SoleDocument(loaded: seq<Option<Document>>, k: nat)
    requires k < |loaded| && loaded[k].Some?
  {
    forall j :: 0 <= j < |loaded| && j != k && loaded[j].Some? ==> loaded[j].value.id != loaded[k].value.id
  }

  /** The chunk identifiers of a document. */
  ghost predicate ChunkOf(g: Ingester, doc: Document, id: string)
    requires g.windows.Valid()
  {
    exists i: nat :: i < Number(g.windows, |doc.content|) && id == ChunkId(doc.id, i)
  }

  lemma BatchNamesChunks(g: Ingester, loaded: seq<Option<Document>>, k: nat, batch: seq<Record>, id: string)
    requires g.windows.Valid() && Describes(g, loaded, batch)
    requires k < |loaded| && loaded[k].Some? && SoleDocument(loaded, k)
    requires id in IdsOf(batch, loaded[k].value.id)
    ensures ChunkOf(g, loaded[k].value, id)
  {
    var doc := loaded[k].value;
    var n :| 0 <= n < |batch| && batch[n].parentId == doc.id && batch[n].chunkId == id;
    assert IsWindowOf(g, loaded, batch[n]);
    var j, i: nat :| 0 <= j < |loaded| && loaded[j].Some? && RecordAt(g, loaded[j].value, i, batch[n]);
    assert loaded[j].value.id == doc.id;
  }

  lemma BatchHasChunk(g: Ingester, loaded: seq<Option<Document>>, k: nat, batch: seq<Record>, i: nat) returns (r: Record)
    requires g.windows.Valid() && Describes(g, loaded, batch)
    requires k < |loaded| && loaded[k].Some? && i < Number(g.windows, |loaded[k].value.content|)
    ensures r in batch && RecordAt(g, loaded[k].value, i, r)
    ensures r.chunkId == ChunkId(loaded[k].value.id, i) && r.parentId == loaded[k].value.id
    ensures loaded[k].value.id in Parents(batch)
  {
    assert HasWindows(g, batch, loaded[k].value);
    assert HasWindow(g, batch, loaded[k].value, i);
    r :| r in batch && RecordAt(g, loaded[k].value, i, r);
    var n :| 0 <= n < |batch| && batch[n] == r;
  }

  ghost predicate HoldsWindow(g: Ingester, docs: Docs, doc: Document, i: nat)
    requires g.windows.Valid()
  {
    ChunkId(doc.id, i) in docs && RecordAt(g, doc, i, docs[ChunkId(doc.id, i)])
  }

  /** A chunk of the document from before the import, that the import neither overwrites nor deletes. */
  ghost predicate LeftOver(before: Docs, batch: seq<Record>, stale: seq<string>, doc: Document, id: string) {
    id in before && before[id].parentId == doc.id && id !in Ids(batch) && before[id].sourcePath !in stale
  }

  /** The store has no chunk of the document but its present windows. */
  ghost predicate HoldsNothingElse(g: Ingester, docs: Docs, doc: Document)
    requires g.windows.Valid()
  {
    forall id :: id in docs && docs[id].parentId == doc.id ==> ChunkOf(g, doc, id)
  }

  ghost predicate HoldsEveryWindow(g: Ingester, docs: Docs, doc: Document)
    requires g.windows.Valid()
  {
    forall i: nat :: i < Number(g.windows, |doc.content|) ==> HoldsWindow(g, docs, doc, i)
  }

  /** Nothing of an empty document is in the batch. */
  lemma EmptyIsNoParent(g: Ingester, loaded: seq<Option<Document>>, k: nat, batch: seq<Record>)
    requires g.windows.Valid() && Describes(g, loaded, batch)
    requires k < |loaded| && loaded[k].Some? && SoleDocument(loaded, k) && loaded[k].value.content == ""
    ensures loaded[k].value.id !in Parents(batch)
  {
    if loaded[k].value.id in Parents(batch) {
      var n :| 0 <= n < |batch| && batch[n].parentId == loaded[k].value.id;
      BatchNamesChunks(g, loaded, k, batch, batch[n].chunkId);
    }
  }

  /** With text, the document's chunks are its windows, whatever was stored of it before. */
  lemma TextLeavesNothingElse(g: Ingester, loaded: seq<Option<Document>>, k: nat, before: Docs, after: Docs, batch: seq<Record>, stale: seq<string>)
    requires g.windows.Valid() && Describes(g, loaded, batch) && Merged(before, after, batch, stale)
    requires k < |loaded| && loaded[k].Some? && SoleDocument(loaded, k) && loaded[k].value.content != ""
    ensures HoldsNothingElse(g, after, loaded[k].value)
  {
    var doc := loaded[k].value;
    var first := BatchHasChunk(g, loaded, k, batch, 0);
    MergedDocument(before, after, batch, stale, doc.id);
    forall id | id in after && after[id].parentId == doc.id ensures ChunkOf(g, doc, id) {
      KeptIsInBatch(batch, stale, doc.id, id);
      BatchNamesChunks(g, loaded, k, batch, id);
    }
  }

  lemma KeptIsInBatch(batch: seq<Record>, stale: seq<string>, parent: string, id: string)
    requires KeptOf(batch, stale, parent, id)
    ensures id in IdsOf(batch, parent)
  {
  }

  /** Without text, exactly the chunks left over stay. */
  lemma EmptyKeepsExactlyTheLeftOver(g: Ingester, loaded: seq<Option<Document>>, k: nat, before: Docs, after: Docs,
                                     batch: seq<Record>, stale: seq<string>, id: string)
    requires g.windows.Valid() && Describes(g, loaded, batch) && Merged(before, after, batch, stale)
    requires k < |loaded| && loaded[k].Some? && SoleDocument(loaded, k) && loaded[k].value.content == ""
    ensures id in after && after[id].parentId == loaded[k].value.id <==> LeftOver(before, batch, stale, loaded[k].value, id)
    ensures LeftOver(before, batch, stale, loaded[k].value, id) ==> after[id] == before[id]
    ensures !ChunkOf(g, loaded[k].value, id)
  {
    EmptyIsNoParent(g, loaded, k, batch);
    OthersAreKept(before, after, batch, stale, loaded[k].value, id);
  }

  lemma OthersAreKept(before: Docs, after: Docs, batch: seq<Record>, stale: seq<string>, doc: Document, id: string)
    requires Merged(before, after, batch, stale) && doc.id !in Parents(batch)
    ensures id in after && after[id].parentId == doc.id <==> LeftOver(before, batch, stale, doc, id)
    ensures LeftOver(before, batch, stale, doc, id) ==> after[id] == before[id]
  {
    if id in after && after[id].parentId == doc.id {
      assert FromEither(before, id, after[id], batch);
      if after[id] in batch { ParentIsIn(batch, after[id]); }
    }
  }

  lemma ParentIsIn(batch: seq<Record>, r: Record)
    requires r in batch
    ensures r.parentId in Parents(batch)
  {
    var i :| 0 <= i < |batch| && batch[i] == r;
  }

  /** The windows are all there exactly when the document is empty or its path is not being deleted. */
  lemma WindowsAreStored(g: Ingester, loaded: seq<Option<Document>>, k: nat, before: Docs, after: Docs, batch: seq<Record>, stale: seq<string>)
    requires g.windows.Valid() && Describes(g, loaded, batch) && Merged(before, after, batch, stale)
    requires k < |loaded| && loaded[k].Some?
    ensures HoldsEveryWindow(g, after, loaded[k].value) <==> loaded[k].value.content == "" || loaded[k].value.sourcePath !in stale
  {
    var doc := loaded[k].value;
    if doc.sourcePath !in stale {
      forall i: nat | i < Number(g.windows, |doc.content|) ensures HoldsWindow(g, after, doc, i) {
        var r := BatchHasChunk(g, loaded, k, batch, i);
        MergedRecord(before, after, batch, stale, r);
      }
    } else if doc.content != "" {
      StaleHoldsNoWindow(g, doc, before, after, batch, stale);
      assert 0 < Number(g.windows, |doc.content|);
    }
  }

  lemma StaleHoldsNoWindow(g: Ingester, doc: Document, before: Docs, after: Docs, batch: seq<Record>, stale: seq<string>)
    requires g.windows.Valid() && Merged(before, after, batch, stale) && doc.sourcePath in stale
    ensures !HoldsWindow(g, after, doc, 0)
  {
  }

  /**
   * After a successful directory import, a listed document has no chunks but its windows exactly when it
   * has text, or nothing of it was left over; and all its windows are there exactly when it has no text,
   * or its path is not being deleted. With SplitIsLossless, a document with text can then be read back.
   */
  lemma StoreHoldsTheDocument(g: Ingester, loaded: seq<Option<Document>>, k: nat, clean: Cleaner, s: State, e: Event, t: State)
    requires g.windows.Valid() && k < |loaded| && loaded[k].Some? && SoleDocument(loaded, k)
    requires e.Sync? && e.ok && BatchOf(g, loaded) == Some(e.batch) && Step(clean, s, e, t)
    ensures var doc, stale := loaded[k].value, StaleOf(clean, s.roots, e.root, e.listing);
            && (HoldsNothingElse(g, t.docs, doc) <==> doc.content != "" || forall id :: !LeftOver(s.docs, e.batch, stale, doc, id))
            && (HoldsEveryWindow(g, t.docs, doc) <==> doc.content == "" || doc.sourcePath !in stale)
  {
    BatchIsWindows(g, loaded);
    MergedHoldsTheDocument(g, loaded, k, s.docs, t.docs, e.batch, StaleOf(clean, s.roots, e.root, e.listing));
  }

  lemma MergedHoldsTheDocument(g: Ingester, loaded: seq<Option<Document>>, k: nat, before: Docs, after: Docs, batch: seq<Record>, stale: seq<string>)
    requires g.windows.Valid() && Describes(g, loaded, batch) && Merged(before, after, batch, stale)
    requires k < |loaded| && loaded[k].Some? && SoleDocument(loaded, k)
    ensures var doc := loaded[k].value;
            && (HoldsNothingElse(g, after, doc) <==> doc.content != "" || forall id :: !LeftOver(before, batch, stale, doc, id))
            && (HoldsEveryWindow(g, after, doc) <==> doc.content == "" || doc.sourcePath !in stale)
  {
    WindowsAreStored(g, loaded, k, before, after, batch, stale);
    if loaded[k].value.content != "" {
      TextLeavesNothingElse(g, loaded, k, before, after, batch, stale);
    } else {
      EmptyLeavesTheLeftOver(g, loaded, k, before, after, batch, stale);
    }
  }

  lemma EmptyLeavesTheLeftOver(g: Ingester, loaded: seq<Option<Document>>, k: nat, before: Docs, after: Docs, batch: seq<Record>, stale: seq<string>)
    requires g.windows.Valid() && Describes(g, loaded, batch) && Merged(before, after, batch, stale)
    requires k < |loaded| && loaded[k].Some? && SoleDocument(loaded, k) && loaded[k].value.content == ""
    ensures HoldsNothingElse(g, after, loaded[k].value) <==> forall id :: !LeftOver(before, batch, stale, loaded[k].value, id)
  {
    forall id
      ensures !ChunkOf(g, loaded[k].value, id)
      ensures id in after && after[id].parentId == loaded[k].value.id <==> LeftOver(before, batch, stale, loaded[k].value, id)
    {
      EmptyKeepsExactlyTheLeftOver(g, loaded, k, before, after, batch, stale, id);
    }
  }

  // ---------------------------------------------------------------- a file that becomes empty

  /** A listed file is imported with text and then imported empty: every chunk of its text is still stored. */
  method EmptiedFileKeepsItsChunks(g: Ingester, clean: Cleaner, root: string, doc: Document)
    returns (sync: DirectorySyncState, store: ChromemStore)
    requires g.windows.Valid() && doc.content != "" && Plain(clean, doc.sourcePath)
    requires BatchOf(g, [Some(doc)]).Some? && ValidBatch(BatchOf(g, [Some(doc)]).value)
    ensures HoldsEveryWindow(g, store.docs, doc)
    ensures !HoldsNothingElse(g, store.docs, doc.(content := ""))
  {
    sync := new DirectorySyncState(clean);
    store := new ChromemStore();
    var empty := doc.(content := "");
    var listing, first, second := [doc.sourcePath], [Some(doc)], [Some(empty)];
    var batch := BuildBatch(g, first);
    ghost var s := State(store.docs, sync.roots);
    var err := Import(sync, store, root, listing, batch.value, false);
    ghost var t := State(store.docs, sync.roots);
    NothingIsLoaded(g, empty);
    batch := BuildBatch(g, second);
    err := Import(sync, store, root, listing, batch.value, false);
    Emptied(g, clean, root, doc, s, t, State(store.docs, sync.roots));
  }

  lemma NothingIsLoaded(g: Ingester, empty: Document)
    requires g.windows.Valid() && empty.content == ""
    ensures BatchOf(g, [Some(empty)]) == Some([])
  {
    var loaded := [Some(empty)];
    assert loaded[..0] == [] && BatchOf(g, []) == Some([]);
    assert WindowsOf(g.windows, empty) == [];
    assert DocumentRecords(g, empty) == Some([]);
    var none: seq<Record> := [];
    assert none + none == none;
  }

  lemma Emptied(g: Ingester, clean: Cleaner, root: string, doc: Document, s: State, t: State, u: State)
    requires g.windows.Valid() && doc.content != "" && Plain(clean, doc.sourcePath) && BatchOf(g, [Some(doc)]).Some?
    requires SyncStep(clean, s, root, [doc.sourcePath], BatchOf(g, [Some(doc)]).value, true, t)
    requires SyncStep(clean, t, root, [doc.sourcePath], [], true, u)
    ensures HoldsEveryWindow(g, u.docs, doc) && !HoldsNothingElse(g, u.docs, doc.(content := ""))
  {
    var listing := [doc.sourcePath];
    ListedIsNotStale(clean, s.roots, root, listing, doc.sourcePath);
    ListedIsNotStale(clean, t.roots, root, listing, doc.sourcePath);
    BatchIsWindows(g, [Some(doc)]);
    WindowsAreStored(g, [Some(doc)], 0, s.docs, t.docs, BatchOf(g, [Some(doc)]).value, StaleOf(clean, s.roots, root, listing));
    WindowsStay(g, doc, t.docs, u.docs, StaleOf(clean, t.roots, root, listing));
  }

  lemma WindowsStay(g: Ingester, doc: Document, before: Docs, after: Docs, stale: seq<string>)
    requires g.windows.Valid() && doc.content != "" && HoldsEveryWindow(g, before, doc)
    requires Merged(before, after, [], stale) && doc.sourcePath !in stale
    ensures HoldsEveryWindow(g, after, doc) && !HoldsNothingElse(g, after, doc.(content := ""))
  {
    forall i: nat | i < Number(g.windows, |doc.content|) ensures HoldsWindow(g, after, doc, i) {
      assert HoldsWindow(g, before, doc, i);
      OthersAreKept(before, after, [], stale, doc, ChunkId(doc.id, i));
    }
    assert HoldsWindow(g, after, doc, 0);
    assert !ChunkOf(g, doc.(content := ""), ChunkId(doc.id, 0));
  }
}
