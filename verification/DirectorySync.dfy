/**
 * Deletion-aware import of directories: the manifest of what each root last committed, the compare,
 * apply, persist, commit protocol around it, and what it keeps of the store over whole runs.
 */
module DirectorySync {
  import opened Sequences
  import opened Ordering
  import opened ChunkStore
  import Text

  /** The lexical path cleaning of the platform. */
  type Cleaner = string -> string

  // ---------------------------------------------------------------- path lists

  function CleanedPaths(clean: Cleaner, paths: seq<string>): seq<string> {
    if paths == [] then []
    else
      var rest, p := CleanedPaths(clean, paths[..|paths| - 1]), paths[|paths| - 1];
      if Text.AllSpace(p) then rest else rest + [clean(Text.TrimSpace(p))]
  }

  function Normalized(clean: Cleaner, paths: seq<string>): seq<string> {
    Listing(CleanedPaths(clean, paths))
  }

  /** Path `x` is how one of `paths` is written once trimmed and cleaned. */
  ghost predicate Names(clean: Cleaner, paths: seq<string>, x: string) {
    exists i :: 0 <= i < |paths| && !Text.AllSpace(paths[i]) && x == clean(Text.TrimSpace(paths[i]))
  }

  lemma {:induction false} CleanedPathsMean(clean: Cleaner, paths: seq<string>, x: string)
    ensures x in CleanedPaths(clean, paths) <==> Names(clean, paths, x)
  {
    if paths != [] {
      var front := paths[..|paths| - 1];
      CleanedPathsMean(clean, front, x);
      if Names(clean, front, x) {
        var i :| 0 <= i < |front| && !Text.AllSpace(front[i]) && x == clean(Text.TrimSpace(front[i]));
        assert paths[i] == front[i];
      }
      if Names(clean, paths, x) {
        var i :| 0 <= i < |paths| && !Text.AllSpace(paths[i]) && x == clean(Text.TrimSpace(paths[i]));
        if i < |paths| - 1 { assert front[i] == paths[i]; }
      }
    }
  }

  /** A normalized listing depends only on which paths are named: not on order, repetition or blanks around them. */
  lemma NormalizedIsCanonical(clean: Cleaner, a: seq<string>, b: seq<string>)
    ensures Ascending(Normalized(clean, a))
    ensures forall x :: x in Normalized(clean, a) <==> Names(clean, a, x)
    ensures Normalized(clean, a) == Normalized(clean, b) <==> forall x :: Names(clean, a, x) <==> Names(clean, b, x)
  {
    NormalizedMeans(clean, a);
    NormalizedMeans(clean, b);
    if forall x :: Names(clean, a, x) <==> Names(clean, b, x) {
      AscendingIsUnique(Normalized(clean, a), Normalized(clean, b));
    }
  }

  lemma NormalizedMeans(clean: Cleaner, paths: seq<string>)
    ensures Ascending(Normalized(clean, paths))
    ensures forall x :: x in Normalized(clean, paths) <==> Names(clean, paths, x)
  {
    ListingMeans(CleanedPaths(clean, paths));
    forall x ensures x in Normalized(clean, paths) <==> Names(clean, paths, x) {
      CleanedPathsMean(clean, paths, x);
    }
  }

  method Normalize(clean: Cleaner, paths: seq<string>) returns (r: seq<string>)
    ensures r == Normalized(clean, paths)
  {
    var normalized := [];
    for i := 0 to |paths|
      invariant normalized == CleanedPaths(clean, paths[..i])
    {
      assert paths[..i + 1][..i] == paths[..i];
      Text.BlankIsAllSpace(paths[i]);
      var cleaned := Text.TrimSpace(paths[i]);
      if cleaned != "" {
        normalized := normalized + [clean(cleaned)];
      }
    }
    assert paths[..|paths|] == paths;
    if normalized == [] {
      return [];
    }
    r := Compact(Sort(normalized, TextLe));
  }

  function Difference(previous: seq<string>, current: seq<string>): (r: seq<string>)
    ensures forall x :: x in r <==> x in previous && x !in current
  {
    if previous == [] then []
    else
      var last := previous[|previous| - 1];
      assert previous == previous[..|previous| - 1] + [last];
      Difference(previous[..|previous| - 1], current) + (if last in current then [] else [last])
  }

  method Diff(previous: seq<string>, current: seq<string>) returns (stale: seq<string>)
    ensures stale == Difference(previous, current)
  {
    var currentSet := set path | path in current;
    stale := [];
    for i := 0 to |previous|
      invariant stale == Difference(previous[..i], current)
    {
      assert previous[..i + 1][..i] == previous[..i];
      if previous[i] !in currentSet {
        stale := stale + [previous[i]];
      }
    }
    assert previous[..|previous|] == previous;
  }

  // ---------------------------------------------------------------- the steps on values

  type Manifest = map<string, seq<string>>

  datatype State = State(docs: Docs, roots: Manifest)

  function Committed(roots: Manifest, root: string): seq<string> {
    if root in roots then roots[root] else []
  }

  function Commit(roots: Manifest, root: string, current: seq<string>): Manifest {
    if current == [] then roots - {root} else roots[root := current]
  }

  /** A record the batch neither overwrites nor replaces with its document. */
  predicate Outside(id: string, r: Record, batch: seq<Record>) {
    id !in Ids(batch) && r.parentId !in Parents(batch)
  }

  /** The store after a successful batch and the delete of the stale paths. */
  ghost predicate Merged(before: Docs, after: Docs, batch: seq<Record>, stale: seq<string>) {
    && (forall id :: id in before && Outside(id, before[id], batch) && before[id].sourcePath !in stale ==>
          id in after && after[id] == before[id])
    && (forall id :: id in after ==> after[id].sourcePath !in stale && FromEither(before, id, after[id], batch))
    && (forall i :: 0 <= i < |batch| && batch[i].sourcePath !in stale ==>
          batch[i].chunkId in after && after[batch[i].chunkId] == batch[i])
  }

  ghost predicate FromEither(before: Docs, id: string, r: Record, batch: seq<Record>) {
    if id in Ids(batch) then FromBatch(id, r, batch) else id in before && r == before[id] && Outside(id, r, batch)
  }

  /** The store after an attempt that stopped on the way. */
  ghost predicate Disturbed(before: Docs, after: Docs, batch: seq<Record>, stale: seq<string>) {
    && (forall id :: id in before && Outside(id, before[id], batch) && before[id].sourcePath !in stale ==>
          id in after && after[id] == before[id])
    && (forall id :: id in after ==> (id in before && after[id] == before[id]) || FromBatch(id, after[id], batch))
  }

  datatype Event =
    | Sync(root: string, listing: seq<string>, batch: seq<Record>, ok: bool)
    | Remove(root: string, listing: seq<string>, ok: bool)
    | Write(batch: seq<Record>, ok: bool)
    | Erase(paths: seq<string>, ok: bool)

  function StaleOf(clean: Cleaner, roots: Manifest, root: string, listing: seq<string>): seq<string> {
    Difference(Committed(roots, clean(root)), Normalized(clean, listing))
  }

  function RemovedBy(clean: Cleaner, roots: Manifest, root: string, listing: seq<string>): seq<string> {
    Normalized(clean, Committed(roots, clean(root)) + Normalized(clean, listing))
  }

  ghost predicate SyncStep(clean: Cleaner, s: State, root: string, listing: seq<string>, batch: seq<Record>, ok: bool, t: State) {
    var stale := StaleOf(clean, s.roots, root, listing);
    if ok then
      && ValidBatch(batch) && Merged(s.docs, t.docs, batch, stale)
      && t.roots == Commit(s.roots, clean(root), Normalized(clean, listing))
    else
      Disturbed(s.docs, t.docs, batch, stale) && t.roots == s.roots
  }

  ghost predicate RemoveStep(clean: Cleaner, s: State, root: string, listing: seq<string>, ok: bool, t: State) {
    var paths := RemovedBy(clean, s.roots, root, listing);
    if ok then t.docs == Without(s.docs, paths) && t.roots == s.roots - {clean(root)}
    else PartlyErased(s.docs, t.docs, paths) && t.roots == s.roots
  }

  ghost predicate Step(clean: Cleaner, s: State, e: Event, t: State) {
    match e
    case Sync(root, listing, batch, ok) => SyncStep(clean, s, root, listing, batch, ok, t)
    case Remove(root, listing, ok) => RemoveStep(clean, s, root, listing, ok, t)
    case Write(batch, ok) =>
      t.roots == s.roots && PartlyWritten(s.docs, t.docs, batch) && (ok ==> Written(s.docs, t.docs, batch))
    case Erase(paths, ok) =>
      t.roots == s.roots && PartlyErased(s.docs, t.docs, paths) && (ok ==> t.docs == Without(s.docs, paths))
  }

  // ---------------------------------------------------------------- the protocol

  datatype SyncFaults = SyncFaults(upsert: Faults, erase: EraseFaults, persistFails: bool)

  datatype SyncError = StoreFailed(error: StoreError) | PersistFailed

  lemma WrittenThenErased(before: Docs, mid: Docs, after: Docs, batch: seq<Record>, stale: seq<string>)
    requires PartlyErased(mid, after, stale)
    ensures PartlyWritten(before, mid, batch) ==> Disturbed(before, after, batch, stale)
    ensures Written(before, mid, batch) && after == Without(mid, stale) ==> Merged(before, after, batch, stale)
  {
    if PartlyWritten(before, mid, batch) {
      DisturbedBy(before, mid, after, batch, stale);
      if Written(before, mid, batch) && after == Without(mid, stale) {
        MergedBy(before, mid, after, batch, stale);
      }
    }
  }

  lemma DisturbedBy(before: Docs, mid: Docs, after: Docs, batch: seq<Record>, stale: seq<string>)
    requires PartlyErased(mid, after, stale) && PartlyWritten(before, mid, batch)
    ensures Disturbed(before, after, batch, stale)
  {
    forall id | id in before && Outside(id, before[id], batch) && before[id].sourcePath !in stale
      ensures id in after && after[id] == before[id]
    {
      assert id in mid && mid[id] == before[id];
    }
  }

  lemma MergedBy(before: Docs, mid: Docs, after: Docs, batch: seq<Record>, stale: seq<string>)
    requires Written(before, mid, batch) && after == Without(mid, stale)
    ensures Merged(before, after, batch, stale)
  {
    forall id | id in before && Outside(id, before[id], batch) && before[id].sourcePath !in stale
      ensures id in after && after[id] == before[id]
    {
      assert id in mid && mid[id] == before[id];
    }
    forall id | id in after ensures after[id].sourcePath !in stale && FromEither(before, id, after[id], batch) {
      MergedOne(before, mid, batch, id);
    }
  }

  lemma MergedOne(before: Docs, mid: Docs, batch: seq<Record>, id: string)
    requires Written(before, mid, batch) && id in mid
    ensures FromEither(before, id, mid[id], batch)
  {
    if id in Ids(batch) {
      var i :| 0 <= i < |batch| && batch[i].chunkId == id;
      assert mid[id] == batch[i];
    }
  }

  class DirectorySyncState {
    const clean: Cleaner
    var roots: Manifest

    constructor (clean: Cleaner)
      ensures this.clean == clean && roots == map[]
    {
      this.clean := clean;
      roots := map[];
    }

    /** What AddKnowledge does with the store once it knows which paths are stale. */
    static method Apply(store: ChromemStore, batch: seq<Record>, stale: seq<string>, f: SyncFaults) returns (err: Option<SyncError>)
      modifies store
      ensures Disturbed(old(store.docs), store.docs, batch, stale)
      ensures err.None? ==> ValidBatch(batch) && Merged(old(store.docs), store.docs, batch, stale)
      ensures ValidBatch(batch) && Faultless(f.upsert) && Quiet(f.erase) ==> err.None?
      ensures err != Some(PersistFailed)
    {
      var e: Option<StoreError> := None;
      if |batch| > 0 {
        e := store.Upsert(batch, f.upsert);
      }
      ghost var mid := store.docs;
      WrittenThenErased(old(store.docs), mid, mid, batch, stale);
      if e.Some? {
        return Some(StoreFailed(e.value));
      }
      if |stale| == 0 {
        assert Without(mid, stale) == mid;
        return None;
      }
      e := store.DeleteBySourcePaths(stale, f.erase);
      WrittenThenErased(old(store.docs), mid, store.docs, batch, stale);
      return if e.Some? then Some(StoreFailed(e.value)) else None;
    }

    method Sync(store: ChromemStore, root: string, listing: seq<string>, batch: seq<Record>, f: SyncFaults)
      returns (err: Option<SyncError>)
      modifies this, store
      ensures SyncStep(clean, State(old(store.docs), old(roots)), root, listing, batch, err.None?, State(store.docs, roots))
      ensures err == Some(PersistFailed) ==>
        Merged(old(store.docs), store.docs, batch, StaleOf(clean, old(roots), root, listing))
      ensures ValidBatch(batch) && Faultless(f.upsert) && Quiet(f.erase) ==>
        err == if f.persistFails then Some(PersistFailed) else None
    {
      var current, stale := Compare(root, listing);
      err := Apply(store, batch, stale, f);
      if err.None? {
        var nextRoots := if |current| == 0 then roots - {clean(root)} else roots[clean(root) := current];
        err := Persist(nextRoots, f.persistFails);
      }
    }

    method Compare(root: string, listing: seq<string>) returns (current: seq<string>, stale: seq<string>)
      ensures current == Normalized(clean, listing)
      ensures stale == StaleOf(clean, roots, root, listing)
    {
      var cleanRoot := clean(root);
      current := Normalize(clean, listing);
      stale := Diff(if cleanRoot in roots then roots[cleanRoot] else [], current);
    }

    /** The new state is taken over only once it has been written. */
    method Persist(nextRoots: Manifest, fails: bool) returns (err: Option<SyncError>)
      modifies this
      ensures if fails then err == Some(PersistFailed) && roots == old(roots) else err.None? && roots == nextRoots
    {
      if fails {
        return Some(PersistFailed);
      }
      roots := nextRoots;
      err := None;
    }

    method Remove(store: ChromemStore, root: string, listing: seq<string>, f: SyncFaults) returns (err: Option<SyncError>)
      modifies this, store
      ensures RemoveStep(clean, State(old(store.docs), old(roots)), root, listing, err.None?, State(store.docs, roots))
      ensures Quiet(f.erase) ==> err == if f.persistFails then Some(PersistFailed) else None
    {
      var paths := Union(root, listing);
      err := DeletePaths(store, paths, f);
      if err.None? {
        err := Persist(roots - {clean(root)}, f.persistFails);
      }
    }

    method Union(root: string, listing: seq<string>) returns (paths: seq<string>)
      ensures paths == RemovedBy(clean, roots, root, listing)
    {
      var cleanRoot := clean(root);
      var current := Normalize(clean, listing);
      paths := Normalize(clean, (if cleanRoot in roots then roots[cleanRoot] else []) + current);
    }

    /** What RemoveKnowledge does with the store once it knows the paths. */
    static method DeletePaths(store: ChromemStore, paths: seq<string>, f: SyncFaults) returns (err: Option<SyncError>)
      modifies store
      ensures PartlyErased(old(store.docs), store.docs, paths)
      ensures err.None? ==> store.docs == Without(old(store.docs), paths)
      ensures Quiet(f.erase) ==> err.None?
      ensures err != Some(PersistFailed)
    {
      if |paths| == 0 {
        assert Without(store.docs, paths) == store.docs;
        return None;
      }
      var e := store.DeleteBySourcePaths(paths, f.erase);
      return if e.Some? then Some(StoreFailed(e.value)) else None;
    }
  }
}
