/** The vector store: a collection of chunk records by chunk identifier, and the batches written to it. */
module ChunkStore {
  import opened Sequences
  import opened Ordering

  datatype Record = Record(
    chunkId: string, parentId: string, sourcePath: string, title: string, text: string,
    start: nat, end: nat, metadata: map<string, string>, embedding: seq<real>)

  type Docs = map<string, Record>

  datatype StoreError =
    | ChunkIdEmpty | ParentIdEmpty | EmbeddingEmpty | DuplicateChunkId
    | Cancelled | AddFailed | ListFailed | DeleteFailed

  /** What can go wrong while one document's old chunks are cleaned up. */
  datatype CleanupFault = Fine | ListFails | DeleteFails(removed: set<string>)

  /**
   * What the collection below does to one batch: an add that fails may have stored any of the batch's
   * records, and a delete that fails may have removed any of the records it was asked to remove.
   */
  datatype Faults = Faults(
    cancelledBefore: bool, addFails: bool, added: set<string>, cleanup: nat -> CleanupFault, cancelledAfter: bool)

  /** The same for a delete by paths: it may fail at one of them, having removed some of its records. */
  datatype EraseFaults = EraseFaults(cancelledBefore: bool, failsAt: Option<nat>, removed: set<string>, cancelledAfter: bool)

  predicate Quiet(f: EraseFaults) {
    !f.cancelledBefore && f.failsAt.None? && !f.cancelledAfter
  }

  ghost predicate Faultless(f: Faults) {
    !f.cancelledBefore && !f.addFails && !f.cancelledAfter && forall i :: f.cleanup(i).Fine?
  }

  // ---------------------------------------------------------------- batches

  function Ids(chunks: seq<Record>): set<string> {
    set i | 0 <= i < |chunks| :: chunks[i].chunkId
  }

  function Parents(chunks: seq<Record>): set<string> {
    set i | 0 <= i < |chunks| :: chunks[i].parentId
  }

  function IdsOf(chunks: seq<Record>, parent: string): set<string> {
    set i | 0 <= i < |chunks| && chunks[i].parentId == parent :: chunks[i].chunkId
  }

  ghost predicate ValidBatch(chunks: seq<Record>) {
    && (forall i :: 0 <= i < |chunks| ==> chunks[i].chunkId != "" && chunks[i].parentId != "" && chunks[i].embedding != [])
    && forall i, j :: 0 <= i < j < |chunks| ==> chunks[i].chunkId != chunks[j].chunkId
  }

  /** What is wrong with record `i`, given those before it. */
  function Flaw(chunks: seq<Record>, i: nat): Option<StoreError>
    requires i < |chunks|
  {
    var c := chunks[i];
    if c.chunkId == "" then Some(ChunkIdEmpty)
    else if c.parentId == "" then Some(ParentIdEmpty)
    else if c.embedding == [] then Some(EmbeddingEmpty)
    else if c.chunkId in Ids(chunks[..i]) then Some(DuplicateChunkId)
    else None
  }

  /** The first flaw decides; a batch without one is valid. */
  method Validate(chunks: seq<Record>) returns (err: Option<StoreError>, parents: set<string>, idsOf: map<string, set<string>>)
    ensures err.None? <==> ValidBatch(chunks)
    ensures err.Some? ==> exists i :: 0 <= i < |chunks| && ValidBatch(chunks[..i]) && Flaw(chunks, i) == err
    ensures err.None? ==> Indexed(chunks, parents, idsOf)
  {
    var seen: set<string> := {};
    parents, idsOf := {}, map[];
    for i := 0 to |chunks|
      invariant ValidBatch(chunks[..i]) && seen == Ids(chunks[..i])
      invariant Indexed(chunks[..i], parents, idsOf)
    {
      var c := chunks[i];
      if Flaw(chunks, i).Some? {
        FlawIsFatal(chunks, i);
      }
      if c.chunkId == "" {
        return Some(ChunkIdEmpty), parents, idsOf;
      }
      if c.parentId == "" {
        return Some(ParentIdEmpty), parents, idsOf;
      }
      if c.embedding == [] {
        return Some(EmbeddingEmpty), parents, idsOf;
      }
      if c.chunkId in seen {
        return Some(DuplicateChunkId), parents, idsOf;
      }
      ValidOneMore(chunks, i);
      OneMore(chunks, i);
      IndexedOneMore(chunks, i, parents, idsOf);
      seen := seen + {c.chunkId};
      parents := parents + {c.parentId};
      idsOf := idsOf[c.parentId := (if c.parentId in idsOf then idsOf[c.parentId] else {}) + {c.chunkId}];
    }
    assert chunks[..|chunks|] == chunks;
    err := None;
  }

  /** The index kept beside a batch: its documents, and the identifiers of each. */
  ghost predicate Indexed(chunks: seq<Record>, parents: set<string>, idsOf: map<string, set<string>>) {
    && parents == Parents(chunks) == idsOf.Keys
    && forall p :: p in idsOf ==> idsOf[p] == IdsOf(chunks, p)
  }

  lemma IndexedOneMore(chunks: seq<Record>, i: nat, parents: set<string>, idsOf: map<string, set<string>>)
    requires i < |chunks| && Indexed(chunks[..i], parents, idsOf)
    ensures var c := chunks[i];
            var ids := (if c.parentId in idsOf then idsOf[c.parentId] else {}) + {c.chunkId};
            Indexed(chunks[..i + 1], parents + {c.parentId}, idsOf[c.parentId := ids])
  {
    OneMore(chunks, i);
  }

  lemma ValidOneMore(chunks: seq<Record>, i: nat)
    requires i < |chunks| && ValidBatch(chunks[..i]) && Flaw(chunks, i).None?
    ensures ValidBatch(chunks[..i + 1])
  {
    var a, b := chunks[..i], chunks[..i + 1];
    assert b == a + [chunks[i]];
    forall k | 0 <= k < i ensures b[k] == a[k] && a[k].chunkId != chunks[i].chunkId {
      assert a[k].chunkId in Ids(a);
    }
  }

  lemma FlawIsFatal(chunks: seq<Record>, i: nat)
    requires i < |chunks| && Flaw(chunks, i).Some?
    ensures !ValidBatch(chunks)
  {
    if chunks[i].chunkId in Ids(chunks[..i]) {
      var k :| 0 <= k < i && chunks[..i][k].chunkId == chunks[i].chunkId;
      assert chunks[k].chunkId == chunks[i].chunkId;
    }
  }

  lemma OneMore(chunks: seq<Record>, i: nat)
    requires i < |chunks|
    ensures Ids(chunks[..i + 1]) == Ids(chunks[..i]) + {chunks[i].chunkId}
    ensures Parents(chunks[..i + 1]) == Parents(chunks[..i]) + {chunks[i].parentId}
    ensures IdsOf(chunks[..i + 1], chunks[i].parentId) == IdsOf(chunks[..i], chunks[i].parentId) + {chunks[i].chunkId}
    ensures forall p :: p != chunks[i].parentId ==> IdsOf(chunks[..i + 1], p) == IdsOf(chunks[..i], p)
    ensures chunks[i].parentId !in Parents(chunks[..i]) ==> IdsOf(chunks[..i], chunks[i].parentId) == {}
  {
    var a, b := chunks[..i], chunks[..i + 1];
    assert b == a + [chunks[i]];
    assert forall k :: 0 <= k < i ==> b[k] == a[k];
    assert b[i] == chunks[i];
  }

  // ---------------------------------------------------------------- what a write may change

  /** Records of other documents, whose identifiers the batch does not take, stay as they are. */
  ghost predicate Kept(before: Docs, after: Docs, chunks: seq<Record>) {
    forall id :: id in before && id !in Ids(chunks) && before[id].parentId !in Parents(chunks) ==>
      id in after && after[id] == before[id]
  }

  /** Every record was there before or comes from the batch. */
  ghost predicate NothingElse(before: Docs, after: Docs, chunks: seq<Record>) {
    forall id :: id in after ==> (id in before && after[id] == before[id]) || FromBatch(id, after[id], chunks)
  }

  ghost predicate FromBatch(id: string, r: Record, chunks: seq<Record>) {
    r in chunks && r.chunkId == id
  }

  ghost predicate Holds(after: Docs, chunks: seq<Record>) {
    forall i :: 0 <= i < |chunks| ==> chunks[i].chunkId in after && after[chunks[i].chunkId] == chunks[i]
  }

  /** The documents in `parents` have no chunks but the batch's. */
  ghost predicate Cleaned(after: Docs, chunks: seq<Record>, parents: set<string>) {
    forall id :: id in after && after[id].parentId in parents ==> id in Ids(chunks)
  }

  /** A failed batch: any mixture of old and new, within the documents and identifiers of the batch. */
  ghost predicate PartlyWritten(before: Docs, after: Docs, chunks: seq<Record>) {
    Kept(before, after, chunks) && NothingElse(before, after, chunks)
  }

  /** A batch that succeeded: every document in it has exactly its records of the batch, all else is as before. */
  ghost predicate Written(before: Docs, after: Docs, chunks: seq<Record>) {
    PartlyWritten(before, after, chunks) && Holds(after, chunks) && Cleaned(after, chunks, Parents(chunks))
  }

  ghost function Elements(s: seq<string>): set<string> {
    set x | x in s
  }

  lemma AddOne(before: Docs, docs: Docs, chunks: seq<Record>, i: nat)
    requires i < |chunks| && ValidBatch(chunks) && PartlyWritten(before, docs, chunks)
    ensures PartlyWritten(before, docs[chunks[i].chunkId := chunks[i]], chunks)
    ensures Holds(docs, chunks[..i]) ==> Holds(docs[chunks[i].chunkId := chunks[i]], chunks[..i + 1])
  {
    assert FromBatch(chunks[i].chunkId, chunks[i], chunks);
    assert chunks[..i + 1] == chunks[..i] + [chunks[i]];
  }

  function Without(docs: Docs, paths: seq<string>): Docs {
    map id | id in docs && docs[id].sourcePath !in paths :: docs[id]
  }

  /** A delete by paths that failed: only records with these paths may be gone. */
  ghost predicate PartlyErased(before: Docs, after: Docs, paths: seq<string>) {
    && (forall id :: id in after ==> id in before && after[id] == before[id])
    && forall id :: id in before && before[id].sourcePath !in paths ==> id in after
  }

  /** A batch that succeeded leaves exactly one possible store. */
  lemma WrittenIsExact(before: Docs, a: Docs, b: Docs, chunks: seq<Record>)
    requires Written(before, a, chunks) && Written(before, b, chunks)
    ensures a == b
  {
    forall id | id in a ensures id in b && a[id] == b[id] {
      WrittenInto(before, a, b, chunks, id);
    }
    forall id | id in b ensures id in a {
      WrittenInto(before, b, a, chunks, id);
    }
  }

  lemma WrittenInto(before: Docs, a: Docs, b: Docs, chunks: seq<Record>, id: string)
    requires Written(before, a, chunks) && Written(before, b, chunks) && id in a
    ensures id in b && a[id] == b[id]
  {
    if id in Ids(chunks) {
      var i :| 0 <= i < |chunks| && chunks[i].chunkId == id;
    } else {
      assert a[id] == before[id] && before[id].parentId !in Parents(chunks);
    }
  }

  // ---------------------------------------------------------------- the store

  class ChromemStore {
    var docs: Docs

    constructor ()
      ensures docs == map[]
    {
      docs := map[];
    }

    /** Adds or overwrites; on failure only the records in `added` got through. */
    method AddDocuments(chunks: seq<Record>, fails: bool, added: set<string>) returns (err: Option<StoreError>)
      requires ValidBatch(chunks)
      modifies this
      ensures err == if fails then Some(AddFailed) else None
      ensures PartlyWritten(old(docs), docs, chunks)
      ensures !fails ==> Holds(docs, chunks)
    {
      for i := 0 to |chunks|
        invariant PartlyWritten(old(docs), docs, chunks)
        invariant !fails ==> Holds(docs, chunks[..i])
      {
        var c := chunks[i];
        if !fails || c.chunkId in added {
          AddOne(old(docs), docs, chunks, i);
          docs := docs[c.chunkId := c];
        }
      }
      assert chunks[..|chunks|] == chunks;
      return if fails then Some(AddFailed) else None;
    }

    /** Removes what an earlier version of the document left behind. */
    method CleanParent(parent: string, current: set<string>, fault: CleanupFault) returns (err: Option<StoreError>)
      modifies this
      ensures fault.Fine? ==> err.None?
      ensures forall id :: id in docs ==> id in old(docs) && docs[id] == old(docs)[id]
      ensures forall id :: id in old(docs) && (id in current || old(docs)[id].parentId != parent) ==> id in docs
      ensures err.None? ==> forall id :: id in docs && docs[id].parentId == parent ==> id in current
    {
      if fault.ListFails? {
        return Some(ListFailed);
      }
      var stale := set id | id in docs && docs[id].parentId == parent && id !in current;
      assert forall id :: id in docs && docs[id].parentId == parent && id !in current ==> id in stale;
      if stale == {} {
        return None;
      }
      if fault.DeleteFails? {
        docs := docs - (stale * fault.removed);
        return Some(DeleteFailed);
      }
      docs := docs - stale;
      err := None;
    }

    method Upsert(chunks: seq<Record>, f: Faults) returns (err: Option<StoreError>)
      modifies this
      ensures chunks == [] ==> err.None?
      ensures !ValidBatch(chunks) ==> err.Some? && docs == old(docs)
      ensures ValidBatch(chunks) && Faultless(f) ==> err.None?
      ensures PartlyWritten(old(docs), docs, chunks)
      ensures err.None? ==> Written(old(docs), docs, chunks)
    {
      if chunks == [] {
        return None;
      }
      var invalid, parents, idsOf := Validate(chunks);
      if invalid.Some? {
        return invalid;
      }
      if f.cancelledBefore {
        return Some(Cancelled);
      }
      var order := SortedElements(parents);
      err := AddDocuments(chunks, f.addFails, f.added);
      if err.Some? {
        return;
      }
      err := CleanAll(chunks, order, idsOf, f.cleanup, old(docs));
      if err.Some? {
        return;
      }
      assert Elements(order) == Parents(chunks);
      return if f.cancelledAfter then Some(Cancelled) else None;
    }

    method CleanAll(chunks: seq<Record>, order: seq<string>, idsOf: map<string, set<string>>, cleanup: nat -> CleanupFault,
                    ghost before: Docs) returns (err: Option<StoreError>)
      requires Indexed(chunks, Elements(order), idsOf)
      requires PartlyWritten(before, docs, chunks) && Holds(docs, chunks)
      modifies this
      ensures (forall i :: cleanup(i).Fine?) ==> err.None?
      ensures PartlyWritten(before, docs, chunks)
      ensures err.None? ==> Holds(docs, chunks) && Cleaned(docs, chunks, Elements(order))
    {
      for k := 0 to |order|
        invariant PartlyWritten(before, docs, chunks) && Holds(docs, chunks)
        invariant Cleaned(docs, chunks, Elements(order[..k]))
      {
        assert order[k] in Elements(order);
        err := CleanOne(chunks, order[k], idsOf[order[k]], cleanup(k), before, Elements(order[..k]));
        if err.Some? {
          return;
        }
        assert Elements(order[..k + 1]) == Elements(order[..k]) + {order[k]} by { assert order[..k + 1] == order[..k] + [order[k]]; }
      }
      assert order[..|order|] == order;
      err := None;
    }

    method CleanOne(chunks: seq<Record>, parent: string, current: set<string>, fault: CleanupFault,
                    ghost before: Docs, ghost done: set<string>) returns (err: Option<StoreError>)
      requires current == IdsOf(chunks, parent) && parent in Parents(chunks)
      requires PartlyWritten(before, docs, chunks) && Holds(docs, chunks) && Cleaned(docs, chunks, done)
      modifies this
      ensures fault.Fine? ==> err.None?
      ensures PartlyWritten(before, docs, chunks)
      ensures err.None? ==> Holds(docs, chunks) && Cleaned(docs, chunks, done + {parent})
    {
      err := CleanParent(parent, current, fault);
      assert forall id :: id in IdsOf(chunks, parent) ==> id in Ids(chunks);
      assert forall i :: 0 <= i < |chunks| ==> chunks[i].chunkId in old(docs) && old(docs)[chunks[i].chunkId] == chunks[i];
    }

    method DeleteBySourcePaths(paths: seq<string>, f: EraseFaults) returns (err: Option<StoreError>)
      modifies this
      ensures Quiet(f) || paths == [] ==> err.None?
      ensures PartlyErased(old(docs), docs, paths)
      ensures err.None? ==> docs == Without(old(docs), paths)
    {
      if paths == [] {
        assert Without(docs, paths) == docs;
        return None;
      }
      if f.cancelledBefore {
        return Some(Cancelled);
      }
      var order := Listing(paths);
      ListingMeans(paths);
      for k := 0 to |order|
        invariant docs == Without(old(docs), order[..k])
      {
        assert order[k] in paths;
        WithoutOneMore(old(docs), order, k);
        ghost var before := docs;
        err := EraseOne(order[k], f.failsAt == Some(k), f.removed);
        if err.Some? {
          assert PartlyErased(before, docs, [order[k]]);
          ErasedFurther(old(docs), order[..k], before, order[k], docs, paths);
          return;
        }
      }
      assert order[..|order|] == order;
      SamePaths(old(docs), order, paths);
      return if f.cancelledAfter then Some(Cancelled) else None;
    }

    method EraseOne(path: string, fails: bool, removed: set<string>) returns (err: Option<StoreError>)
      modifies this
      ensures err == if fails then Some(DeleteFailed) else None
      ensures PartlyErased(old(docs), docs, [path])
      ensures !fails ==> docs == Without(old(docs), [path])
    {
      if fails {
        var hit := set id | id in docs && docs[id].sourcePath == path;
        docs := docs - (hit * removed);
        return Some(DeleteFailed);
      }
      docs := Without(docs, [path]);
      err := None;
    }
  }

  lemma WithoutOneMore(docs: Docs, order: seq<string>, k: nat)
    requires k < |order|
    ensures Without(Without(docs, order[..k]), [order[k]]) == Without(docs, order[..k + 1])
  {
    assert order[..k + 1] == order[..k] + [order[k]];
  }

  lemma SamePaths(docs: Docs, a: seq<string>, b: seq<string>)
    requires forall x :: x in a <==> x in b
    ensures Without(docs, a) == Without(docs, b)
    ensures PartlyErased(docs, Without(docs, b), b)
  {
  }

  lemma ErasedFurther(start: Docs, done: seq<string>, before: Docs, path: string, after: Docs, paths: seq<string>)
    requires before == Without(start, done) && PartlyErased(before, after, [path])
    requires path in paths && forall x :: x in done ==> x in paths
    ensures PartlyErased(start, after, paths)
  {
    forall id | id in start && start[id].sourcePath !in paths ensures id in after {
      assert id in before;
    }
  }

  /** The elements of a set in ascending order. */
  method SortedElements(s: set<string>) returns (r: seq<string>)
    ensures Ascending(r) && forall x :: x in r <==> x in s
  {
    var rest, list := s, [];
    while rest != {}
      invariant rest <= s && forall x :: x in list <==> x in s - rest
      decreases rest
    {
      var x :| x in rest;
      rest, list := rest - {x}, list + [x];
    }
    ListingMeans(list);
    r := Listing(list);
  }
}
