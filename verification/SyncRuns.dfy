/** Directory imports over whole runs: what successes promise, and what failures can leave behind. */
module SyncRuns {
  import opened Sequences
  import opened Ordering
  import opened ChunkStore
  import opened DirectorySync
  import Text

  ghost predicate IsRun(clean: Cleaner, states: seq<State>, events: seq<Event>) {
    && |states| == |events| + 1
    && forall i :: 0 <= i < |events| ==> Step(clean, states[i], events[i], states[i + 1])
  }

  /** A path that trimming and cleaning leave alone. */
  predicate Plain(clean: Cleaner, p: string) {
    !Text.AllSpace(p) && clean(Text.TrimSpace(p)) == p
  }

  predicate PlainPaths(clean: Cleaner, paths: seq<string>) {
    forall p :: p in paths ==> Plain(clean, p)
  }

  /** An import writes records of the files it lists, as they are listed. */
  predicate BatchWithin(batch: seq<Record>, paths: seq<string>) {
    forall r :: r in batch ==> r.sourcePath in paths
  }

  /** Imports of other roots write no record inside this one. */
  ghost predicate Apart(clean: Cleaner, root: string, inside: string -> bool, e: Event) {
    e.Sync? && clean(e.root) != root ==> forall r :: r in e.batch ==> !inside(r.sourcePath)
  }

  ghost predicate Orderly(clean: Cleaner, root: string, inside: string -> bool, events: seq<Event>) {
    forall e :: e in events ==> Apart(clean, root, inside, e)
  }

  function PathsOf(batch: seq<Record>): set<string> {
    set i | 0 <= i < |batch| :: batch[i].sourcePath
  }

  /**
   * The paths the manifest of `root` may not know of: those written by a failed import of that root, by
   * a write of single files, or under a name the listing does not commit, until a later success of the
   * same root commits them or a removal or an erase names them.
   */
  ghost function Suspects(clean: Cleaner, root: string, states: seq<State>, events: seq<Event>): set<string>
    requires |states| == |events| + 1
    decreases |events|
  {
    if events == [] then {}
    else
      var n := |events| - 1;
      SuspectsAfter(clean, root, states[n].roots, Suspects(clean, root, states[..n + 1], events[..n]), events[n])
  }

  ghost function SuspectsAfter(clean: Cleaner, root: string, roots: Manifest, before: set<string>, e: Event): set<string> {
    match e
    case Sync(r, listing, batch, ok) =>
      if clean(r) != root then before
      else if ok then before + PathsOf(batch) - Elements(Normalized(clean, listing))
      else before + PathsOf(batch)
    case Remove(r, listing, ok) =>
      if clean(r) == root && ok then before + Elements(Committed(roots, root)) - Elements(RemovedBy(clean, roots, r, listing))
      else before
    case Write(batch, ok) => before + PathsOf(batch)
    case Erase(paths, ok) => if ok then before - Elements(paths) else before
  }

  // ---------------------------------------------------------------- the invariant

  /** Every stored path of the root is committed or suspect. */
  ghost predicate Known(s: State, root: string, inside: string -> bool, suspects: set<string>) {
    forall id :: id in s.docs && inside(s.docs[id].sourcePath) ==> KnownPath(s.roots, root, suspects, s.docs[id].sourcePath)
  }

  predicate KnownPath(roots: Manifest, root: string, suspects: set<string>, p: string) {
    p in Committed(roots, root) || p in suspects
  }

  lemma KnownAfterSync(clean: Cleaner, s: State, e: Event, t: State, root: string, inside: string -> bool, suspects: set<string>)
    requires e.Sync? && Step(clean, s, e, t) && Apart(clean, root, inside, e)
    requires Known(s, root, inside, suspects)
    ensures Known(t, root, inside, SuspectsAfter(clean, root, s.roots, suspects, e))
  {
    forall id | id in t.docs && inside(t.docs[id].sourcePath)
      ensures KnownPath(t.roots, root, SuspectsAfter(clean, root, s.roots, suspects, e), t.docs[id].sourcePath)
    {
      if e.ok {
        KnownAfterSuccess(clean, s, e, t, root, inside, suspects, id);
      } else if FromBatch(id, t.docs[id], e.batch) {
        InPathsOf(e.batch, t.docs[id]);
      }
    }
  }

  lemma KnownAfterSuccess(clean: Cleaner, s: State, e: Event, t: State, root: string, inside: string -> bool, suspects: set<string>, id: string)
    requires e.Sync? && e.ok && Step(clean, s, e, t) && Apart(clean, root, inside, e)
    requires Known(s, root, inside, suspects) && id in t.docs && inside(t.docs[id].sourcePath)
    ensures KnownPath(t.roots, root, SuspectsAfter(clean, root, s.roots, suspects, e), t.docs[id].sourcePath)
  {
    var current, r := Normalized(clean, e.listing), t.docs[id];
    assert Committed(t.roots, clean(e.root)) == current;
    assert FromEither(s.docs, id, r, e.batch) && r.sourcePath !in StaleOf(clean, s.roots, e.root, e.listing);
    if id in Ids(e.batch) {
      InPathsOf(e.batch, r);
    } else {
      assert KnownPath(s.roots, root, suspects, r.sourcePath);
    }
  }

  lemma InPathsOf(batch: seq<Record>, r: Record)
    requires r in batch
    ensures r.sourcePath in PathsOf(batch)
  {
  }

  lemma KnownAfterRemove(clean: Cleaner, s: State, e: Event, t: State, root: string, inside: string -> bool, suspects: set<string>)
    requires e.Remove? && Step(clean, s, e, t)
    requires Known(s, root, inside, suspects)
    ensures Known(t, root, inside, SuspectsAfter(clean, root, s.roots, suspects, e))
  {
    forall id | id in t.docs && inside(t.docs[id].sourcePath)
      ensures KnownPath(t.roots, root, SuspectsAfter(clean, root, s.roots, suspects, e), t.docs[id].sourcePath)
    {
      RemoveKeeps(clean, s, e, t, id);
      RemoveKeepsKnown(clean, s, e, t, root, suspects, t.docs[id].sourcePath);
    }
  }

  lemma RemoveKeepsKnown(clean: Cleaner, s: State, e: Event, t: State, root: string, suspects: set<string>, p: string)
    requires e.Remove? && t.roots == (if e.ok then s.roots - {clean(e.root)} else s.roots)
    requires KnownPath(s.roots, root, suspects, p)
    requires e.ok ==> p !in RemovedBy(clean, s.roots, e.root, e.listing)
    ensures KnownPath(t.roots, root, SuspectsAfter(clean, root, s.roots, suspects, e), p)
  {
  }

  lemma RemoveKeeps(clean: Cleaner, s: State, e: Event, t: State, id: string)
    requires e.Remove? && Step(clean, s, e, t) && id in t.docs
    ensures id in s.docs && s.docs[id] == t.docs[id]
    ensures t.roots == if e.ok then s.roots - {clean(e.root)} else s.roots
    ensures e.ok ==> t.docs[id].sourcePath !in RemovedBy(clean, s.roots, e.root, e.listing)
  {
  }

  lemma KnownAfterWrite(clean: Cleaner, s: State, e: Event, t: State, root: string, inside: string -> bool, suspects: set<string>)
    requires (e.Write? || e.Erase?) && Step(clean, s, e, t)
    requires Known(s, root, inside, suspects)
    ensures Known(t, root, inside, SuspectsAfter(clean, root, s.roots, suspects, e))
  {
    forall id | id in t.docs && inside(t.docs[id].sourcePath)
      ensures KnownPath(t.roots, root, SuspectsAfter(clean, root, s.roots, suspects, e), t.docs[id].sourcePath)
    {
      if e.Write? && FromBatch(id, t.docs[id], e.batch) {
        InPathsOf(e.batch, t.docs[id]);
      } else {
        assert id in s.docs && s.docs[id] == t.docs[id];
      }
    }
  }

  lemma KnownAfterStep(clean: Cleaner, s: State, e: Event, t: State, root: string, inside: string -> bool, suspects: set<string>)
    requires Step(clean, s, e, t) && Apart(clean, root, inside, e)
    requires Known(s, root, inside, suspects)
    ensures Known(t, root, inside, SuspectsAfter(clean, root, s.roots, suspects, e))
  {
    if e.Sync? {
      KnownAfterSync(clean, s, e, t, root, inside, suspects);
    } else if e.Remove? {
      KnownAfterRemove(clean, s, e, t, root, inside, suspects);
    } else {
      KnownAfterWrite(clean, s, e, t, root, inside, suspects);
    }
  }

  lemma RunFront(clean: Cleaner, states: seq<State>, events: seq<Event>)
    requires IsRun(clean, states, events) && events != []
    ensures IsRun(clean, states[..|events|], events[..|events| - 1])
    ensures Step(clean, states[|events| - 1], events[|events| - 1], states[|events|])
    ensures events[|events| - 1] in events && forall e :: e in events[..|events| - 1] ==> e in events
  {
  }

  /** In every run, a stored path of a root is committed for it or suspect. */
  lemma {:induction false} StoredPathsAreKnown(clean: Cleaner, states: seq<State>, events: seq<Event>, root: string, inside: string -> bool)
    requires IsRun(clean, states, events) && states[0] == State(map[], map[]) && Orderly(clean, root, inside, events)
    ensures Known(states[|events|], root, inside, Suspects(clean, root, states, events))
    decreases |events|
  {
    if events != [] {
      var n := |events| - 1;
      RunFront(clean, states, events);
      StoredPathsAreKnown(clean, states[..n + 1], events[..n], root, inside);
      KnownAfterStep(clean, states[n], events[n], states[n + 1], root, inside, Suspects(clean, root, states[..n + 1], events[..n]));
    }
  }

  // ---------------------------------------------------------------- what a successful import promises

  ghost predicate StoredOnly(docs: Docs, inside: string -> bool, paths: seq<string>) {
    forall id :: id in docs && inside(docs[id].sourcePath) ==> docs[id].sourcePath in paths
  }

  /** After a success, the store has no path of the root but the committed ones and what is suspect. */
  lemma SuccessLeavesOnlySuspects(clean: Cleaner, states: seq<State>, events: seq<Event>, root: string, inside: string -> bool)
    requires IsRun(clean, states, events) && states[0] == State(map[], map[]) && Orderly(clean, root, inside, events)
    requires events != [] && events[|events| - 1].Sync? && events[|events| - 1].ok && clean(events[|events| - 1].root) == root
    ensures var docs, listed := states[|events|].docs, Normalized(clean, events[|events| - 1].listing);
            forall id :: id in docs && inside(docs[id].sourcePath) ==>
              docs[id].sourcePath in listed || docs[id].sourcePath in Suspects(clean, root, states, events)
  {
    var n := |events| - 1;
    StoredPathsAreKnown(clean, states, events, root, inside);
    RunFront(clean, states, events);
    assert Committed(states[n + 1].roots, root) == Normalized(clean, events[n].listing);
  }

  /** Imports of the root succeed and list plain paths, and files inside it are written only through them. */
  ghost predicate FailureFree(clean: Cleaner, root: string, inside: string -> bool, events: seq<Event>) {
    forall e :: e in events ==> FlawlessFor(clean, root, inside, e)
  }

  ghost predicate FlawlessFor(clean: Cleaner, root: string, inside: string -> bool, e: Event) {
    && (e.Sync? && clean(e.root) == root ==> e.ok && PlainPaths(clean, e.listing) && BatchWithin(e.batch, e.listing))
    && (e.Write? ==> forall r :: r in e.batch ==> !inside(r.sourcePath))
  }

  lemma NormalizedPlain(clean: Cleaner, paths: seq<string>, p: string)
    requires PlainPaths(clean, paths)
    ensures p in Normalized(clean, paths) <==> p in paths
  {
    NormalizedMeans(clean, paths);
    if Names(clean, paths, p) {
      var i :| 0 <= i < |paths| && !Text.AllSpace(paths[i]) && p == clean(Text.TrimSpace(paths[i]));
      assert Plain(clean, paths[i]);
    }
    if p in paths {
      NamesItself(clean, paths, p);
    }
  }

  /** What a removal deletes includes every committed path that is plain. */
  lemma RemovalCoversPlain(clean: Cleaner, roots: Manifest, root: string, listing: seq<string>, p: string)
    requires p in Committed(roots, clean(root)) && Plain(clean, p)
    ensures p in RemovedBy(clean, roots, root, listing)
  {
    var all := Committed(roots, clean(root)) + Normalized(clean, listing);
    NormalizedMeans(clean, all);
    assert p in all;
    NamesItself(clean, all, p);
  }

  lemma NamedBy(clean: Cleaner, paths: seq<string>, q: string, name: string)
    requires q in paths && !Text.AllSpace(q) && name == clean(Text.TrimSpace(q))
    ensures Names(clean, paths, name)
  {
    var i :| 0 <= i < |paths| && paths[i] == q;
  }

  lemma NamesItself(clean: Cleaner, paths: seq<string>, p: string)
    requires p in paths && Plain(clean, p)
    ensures Names(clean, paths, p)
  {
    NamedBy(clean, paths, p, p);
  }

  lemma PlainCommitted(clean: Cleaner, s: State, e: Event, t: State, root: string, inside: string -> bool)
    requires Step(clean, s, e, t) && FlawlessFor(clean, root, inside, e) && PlainPaths(clean, Committed(s.roots, root))
    ensures PlainPaths(clean, Committed(t.roots, root))
  {
    if e.Sync? && e.ok && clean(e.root) == root {
      forall p | p in Committed(t.roots, root) ensures Plain(clean, p) {
        NormalizedPlain(clean, e.listing, p);
      }
    } else if e.Sync? && e.ok {
      assert Committed(t.roots, root) == Committed(s.roots, root);
    } else if e.Remove? && e.ok {
      assert Committed(t.roots, root) == if clean(e.root) == root then [] else Committed(s.roots, root);
    }
  }

  lemma FlawlessAddsNoSuspect(clean: Cleaner, s: State, e: Event, root: string, inside: string -> bool, suspects: set<string>)
    requires FlawlessFor(clean, root, inside, e) && PlainPaths(clean, Committed(s.roots, root))
    requires forall p :: p in suspects ==> !inside(p)
    ensures forall p :: p in SuspectsAfter(clean, root, s.roots, suspects, e) ==> !inside(p)
  {
    forall p | p in SuspectsAfter(clean, root, s.roots, suspects, e) ensures !inside(p) {
      if p !in suspects {
        if e.Remove? {
          RemovalCoversPlain(clean, s.roots, e.root, e.listing, p);
        } else {
          var i :| 0 <= i < |e.batch| && e.batch[i].sourcePath == p;
          assert e.batch[i] in e.batch;
          if e.Sync? {
            NormalizedPlain(clean, e.listing, p);
          }
        }
      }
    }
  }

  lemma {:induction false} NoSuspects(clean: Cleaner, states: seq<State>, events: seq<Event>, root: string, inside: string -> bool)
    requires IsRun(clean, states, events) && states[0] == State(map[], map[]) && FailureFree(clean, root, inside, events)
    ensures forall p :: p in Suspects(clean, root, states, events) ==> !inside(p)
    ensures PlainPaths(clean, Committed(states[|events|].roots, root))
    decreases |events|
  {
    if events != [] {
      var n := |events| - 1;
      RunFront(clean, states, events);
      NoSuspects(clean, states[..n + 1], events[..n], root, inside);
      assert FlawlessFor(clean, root, inside, events[n]);
      PlainCommitted(clean, states[n], events[n], states[n + 1], root, inside);
      FlawlessAddsNoSuspect(clean, states[n], events[n], root, inside, Suspects(clean, root, states[..n + 1], events[..n]));
    }
  }

  /** In runs without failures, after an import the store has a path of the root only if it is listed. */
  lemma StoreFollowsTheListing(clean: Cleaner, states: seq<State>, events: seq<Event>, root: string, inside: string -> bool)
    requires IsRun(clean, states, events) && states[0] == State(map[], map[]) && Orderly(clean, root, inside, events)
    requires FailureFree(clean, root, inside, events)
    requires events != [] && events[|events| - 1].Sync? && clean(events[|events| - 1].root) == root
    ensures StoredOnly(states[|events|].docs, inside, events[|events| - 1].listing)
  {
    var last := events[|events| - 1];
    assert FlawlessFor(clean, root, inside, last);
    SuccessLeavesOnlySuspects(clean, states, events, root, inside);
    NoSuspects(clean, states, events, root, inside);
    forall p | p in Normalized(clean, last.listing) ensures p in last.listing {
      NormalizedPlain(clean, last.listing, p);
    }
  }

  /** A record that no import of the root can reach: not committed, not listed, and not replaced by the batch. */
  ghost predicate Stranded(clean: Cleaner, s: State, e: Event, inside: string -> bool, id: string)
    requires e.Sync?
  {
    && id in s.docs && inside(s.docs[id].sourcePath) && Outside(id, s.docs[id], e.batch)
    && s.docs[id].sourcePath !in Committed(s.roots, clean(e.root))
    && s.docs[id].sourcePath !in Normalized(clean, e.listing)
  }

  /** A record the batch itself writes under a path that its listing does not commit. */
  ghost predicate Misnamed(clean: Cleaner, s: State, e: Event, inside: string -> bool, r: Record)
    requires e.Sync?
  {
    && r in e.batch && inside(r.sourcePath) && r.sourcePath !in Normalized(clean, e.listing)
    && r.sourcePath !in Committed(s.roots, clean(e.root))
  }

  /** Exactly when a success leaves the store with committed paths only. */
  lemma CleanExactlyWithoutStranded(clean: Cleaner, s: State, e: Event, t: State, inside: string -> bool)
    requires e.Sync? && e.ok && Step(clean, s, e, t)
    ensures StoredOnly(t.docs, inside, Normalized(clean, e.listing))
       <==> (forall id :: !Stranded(clean, s, e, inside, id)) && (forall r :: !Misnamed(clean, s, e, inside, r))
  {
    var current := Normalized(clean, e.listing);
    if (forall id :: !Stranded(clean, s, e, inside, id)) && (forall r :: !Misnamed(clean, s, e, inside, r)) {
      forall id | id in t.docs && inside(t.docs[id].sourcePath) ensures t.docs[id].sourcePath in current {
        assert FromEither(s.docs, id, t.docs[id], e.batch);
        assert !Stranded(clean, s, e, inside, id) && !Misnamed(clean, s, e, inside, t.docs[id]);
      }
    }
    forall id | Stranded(clean, s, e, inside, id) ensures !StoredOnly(t.docs, inside, current) {
      assert id in t.docs && t.docs[id] == s.docs[id];
    }
    forall r | Misnamed(clean, s, e, inside, r) ensures !StoredOnly(t.docs, inside, current) {
      var i :| 0 <= i < |e.batch| && e.batch[i] == r;
      assert r.chunkId in t.docs && t.docs[r.chunkId] == r;
    }
  }

  // ---------------------------------------------------------------- a committed path is not forgotten

  /** The event neither removes the root nor lets it commit a listing without `p`. */
  ghost predicate StillWants(clean: Cleaner, root: string, p: string, e: Event) {
    && (e.Remove? && e.ok ==> clean(e.root) != root)
    && (e.Sync? && e.ok && clean(e.root) == root ==> p in Normalized(clean, e.listing))
  }

  /** Whatever fails, and whatever other roots do, a committed path stays committed until its root drops it. */
  lemma {:induction false} CommittedUntilDropped(clean: Cleaner, states: seq<State>, events: seq<Event>, root: string, p: string)
    requires IsRun(clean, states, events) && p in Committed(states[0].roots, root)
    requires forall e :: e in events ==> StillWants(clean, root, p, e)
    ensures p in Committed(states[|events|].roots, root)
    decreases |events|
  {
    if events != [] {
      var n := |events| - 1;
      CommittedUntilDropped(clean, states[..n + 1], events[..n], root, p);
      assert Step(clean, states[n], events[n], states[n + 1]) && StillWants(clean, root, p, events[n]);
    }
  }

  /** So the first import that succeeds without listing it deletes it, however many failed before. */
  lemma DroppedPathIsDeleted(clean: Cleaner, states: seq<State>, events: seq<Event>, last: Event, end: State, root: string, p: string)
    requires IsRun(clean, states, events) && p in Committed(states[0].roots, root)
    requires forall e :: e in events ==> StillWants(clean, root, p, e)
    requires last.Sync? && last.ok && clean(last.root) == root && p !in Normalized(clean, last.listing)
    requires Step(clean, states[|events|], last, end)
    ensures forall id :: id in end.docs ==> end.docs[id].sourcePath != p
  {
    CommittedUntilDropped(clean, states, events, root, p);
    assert p in StaleOf(clean, states[|events|].roots, last.root, last.listing);
  }

  // ---------------------------------------------------------------- removals

  /** A path once more trimmed and cleaned, as a removal does with the committed and the listed names together. */
  ghost predicate Renames(clean: Cleaner, q: string, p: string) {
    !Text.AllSpace(q) && clean(Text.TrimSpace(q)) == p
  }

  /**
   * A removal that succeeds forgets the root, keeps every other root, and deletes exactly the records of the paths
   * that the root had committed or the listing names.
   */
  lemma RemoveDeletesExactly(clean: Cleaner, s: State, root: string, listing: seq<string>, t: State)
    requires Step(clean, s, Remove(root, listing, true), t)
    ensures Committed(t.roots, clean(root)) == [] && forall other :: other != clean(root) ==> Committed(t.roots, other) == Committed(s.roots, other)
    ensures forall id :: id in t.docs ==> id in s.docs && t.docs[id] == s.docs[id]
    ensures forall id :: id in s.docs ==>
      (id !in t.docs <==> exists q :: (q in Committed(s.roots, clean(root)) || Names(clean, listing, q)) && Renames(clean, q, s.docs[id].sourcePath))
  {
    forall id | id in s.docs
      ensures id !in t.docs <==>
        exists q :: (q in Committed(s.roots, clean(root)) || Names(clean, listing, q)) && Renames(clean, q, s.docs[id].sourcePath)
    {
      RemovalNames(clean, Committed(s.roots, clean(root)), listing, s.docs[id].sourcePath);
    }
  }

  lemma RemovalNames(clean: Cleaner, committed: seq<string>, listing: seq<string>, p: string)
    ensures p in Normalized(clean, committed + Normalized(clean, listing)) <==>
      exists q :: (q in committed || Names(clean, listing, q)) && Renames(clean, q, p)
  {
    var all := committed + Normalized(clean, listing);
    NormalizedMeans(clean, listing);
    NormalizedMeans(clean, all);
    if Names(clean, all, p) {
      var i :| 0 <= i < |all| && !Text.AllSpace(all[i]) && p == clean(Text.TrimSpace(all[i]));
      assert all[i] in committed || all[i] in Normalized(clean, listing);
      assert Renames(clean, all[i], p);
    }
    if q :| (q in committed || Names(clean, listing, q)) && Renames(clean, q, p) {
      assert q in all;
      NamedBy(clean, all, q, p);
    }
  }

  /** So a plain path leaves no record behind when the root had committed it or the listing has it. */
  lemma RemoveDeletesListed(clean: Cleaner, s: State, root: string, listing: seq<string>, t: State, p: string)
    requires Step(clean, s, Remove(root, listing, true), t)
    requires Plain(clean, p) && (p in listing || p in Committed(s.roots, clean(root)))
    ensures !HasPath(t.docs, p)
  {
    RemoveDeletesExactly(clean, s, root, listing, t);
    if p in listing { NamesItself(clean, listing, p); }
    assert Renames(clean, p, p);
  }

  // ---------------------------------------------------------------- documents

  /** The identifiers of a document's records in the batch, those of paths about to be deleted aside. */
  ghost predicate KeptOf(batch: seq<Record>, stale: seq<string>, parent: string, id: string) {
    exists i :: 0 <= i < |batch| && batch[i].chunkId == id && batch[i].parentId == parent && batch[i].sourcePath !in stale
  }

  /**
   * A document in the batch has exactly its records of the batch that are not of a stale path, and every
   * record of the batch is there exactly when none is of a stale path.
   */
  lemma DocumentIsExact(clean: Cleaner, s: State, e: Event, t: State, parent: string)
    requires e.Sync? && e.ok && Step(clean, s, e, t) && parent in Parents(e.batch)
    ensures var stale := StaleOf(clean, s.roots, e.root, e.listing);
            && (forall id :: id in t.docs && t.docs[id].parentId == parent <==> KeptOf(e.batch, stale, parent, id))
            && ((forall r :: r in e.batch ==> IsStored(t.docs, r)) <==> forall r :: r in e.batch ==> r.sourcePath !in stale)
  {
    var stale := StaleOf(clean, s.roots, e.root, e.listing);
    MergedDocument(s.docs, t.docs, e.batch, stale, parent);
    forall r | r in e.batch ensures IsStored(t.docs, r) <==> r.sourcePath !in stale {
      MergedRecord(s.docs, t.docs, e.batch, stale, r);
    }
  }

  lemma MergedDocument(before: Docs, after: Docs, batch: seq<Record>, stale: seq<string>, parent: string)
    requires Merged(before, after, batch, stale) && parent in Parents(batch)
    ensures forall id :: id in after && after[id].parentId == parent <==> KeptOf(batch, stale, parent, id)
  {
    forall id ensures id in after && after[id].parentId == parent <==> KeptOf(batch, stale, parent, id) {
      if id in after && after[id].parentId == parent {
        assert FromEither(before, id, after[id], batch);
        var i :| 0 <= i < |batch| && batch[i] == after[id];
      }
    }
  }

  predicate IsStored(docs: Docs, r: Record) {
    r.chunkId in docs && docs[r.chunkId] == r
  }

  /** A record of the batch is in the store afterwards exactly when its path is not stale. */
  lemma MergedRecord(before: Docs, after: Docs, batch: seq<Record>, stale: seq<string>, r: Record)
    requires Merged(before, after, batch, stale) && r in batch
    ensures IsStored(after, r) <==> r.sourcePath !in stale
  {
    var i :| 0 <= i < |batch| && batch[i] == r;
  }

  /** A listed path that is plain is never stale. */
  lemma ListedIsNotStale(clean: Cleaner, roots: Manifest, root: string, listing: seq<string>, p: string)
    requires p in listing && Plain(clean, p)
    ensures p !in StaleOf(clean, roots, root, listing)
  {
    NormalizedMeans(clean, listing);
    NamesItself(clean, listing, p);
  }

  // ---------------------------------------------------------------- paths with outer blanks

  /** A successful import of `root` that writes records of the files it lists, as they are listed. */
  ghost predicate Imports(clean: Cleaner, root: string, s: State, listing: seq<string>, batch: seq<Record>, t: State) {
    SyncStep(clean, s, root, listing, batch, true, t) && BatchWithin(batch, listing)
  }

  predicate Within(some: seq<string>, all: seq<string>) {
    forall p :: p in some ==> p in all
  }

  ghost predicate HasPath(docs: Docs, p: string) {
    exists id :: id in docs && docs[id].sourcePath == p
  }

  /** Whichever of the listed files go away, an import that no longer lists them leaves no record of them. */
  ghost predicate DropsWhatGoes(clean: Cleaner, root: string, listing: seq<string>) {
    forall s, batch, t, fewer, batch', u ::
      Imports(clean, root, s, listing, batch, t) && Imports(clean, root, t, fewer, batch', u) && Within(fewer, listing) ==>
        Dropped(u.docs, listing, fewer)
  }

  ghost predicate Dropped(docs: Docs, listing: seq<string>, fewer: seq<string>) {
    forall p :: p in listing && p !in fewer ==> !HasPath(docs, p)
  }

  /** That holds exactly when every listed path is its own trimmed and cleaned form. */
  lemma DroppedPathsLoseTheirRecordsExactly(clean: Cleaner, root: string, listing: seq<string>)
    ensures DropsWhatGoes(clean, root, listing) <==> PlainPaths(clean, listing)
  {
    if PlainPaths(clean, listing) {
      forall s, batch, t, fewer, batch', u |
        Imports(clean, root, s, listing, batch, t) && Imports(clean, root, t, fewer, batch', u) && Within(fewer, listing)
        ensures Dropped(u.docs, listing, fewer)
      {
        PlainPathsAreDropped(clean, root, listing, s, batch, t, fewer, batch', u);
      }
    } else {
      var p :| p in listing && !Plain(clean, p);
      OddPathStays(clean, root, listing, p);
    }
  }

  lemma PlainPathsAreDropped(clean: Cleaner, root: string, listing: seq<string>, s: State, batch: seq<Record>, t: State,
                             fewer: seq<string>, batch': seq<Record>, u: State)
    requires PlainPaths(clean, listing) && Within(fewer, listing)
    requires Imports(clean, root, s, listing, batch, t) && Imports(clean, root, t, fewer, batch', u)
    ensures Dropped(u.docs, listing, fewer)
  {
    assert Committed(t.roots, clean(root)) == Normalized(clean, listing);
    forall p | p in listing && p !in fewer ensures !HasPath(u.docs, p) {
      assert p in Normalized(clean, listing) by { NormalizedPlain(clean, listing, p); }
      assert p !in Normalized(clean, fewer) by { NormalizedPlain(clean, fewer, p); }
      assert p in StaleOf(clean, t.roots, root, fewer);
    }
  }

  /** A record the second import has no business with: not of a file ever listed, and not in its batch. */
  ghost predicate Undisturbed(before: Docs, after: Docs, listing: seq<string>, batch: seq<Record>) {
    forall id :: id in before && Outside(id, before[id], batch) && before[id].sourcePath !in listing ==>
      id in after && after[id] == before[id]
  }

  /** Whichever of the listed files go away, an import that no longer lists them leaves every other record alone. */
  ghost predicate LeavesOthers(clean: Cleaner, root: string, listing: seq<string>) {
    forall s, batch, t, fewer, batch', u ::
      Imports(clean, root, s, listing, batch, t) && Imports(clean, root, t, fewer, batch', u) && Within(fewer, listing) ==>
        Undisturbed(t.docs, u.docs, listing, batch')
  }

  /** Every path is committed under a name that is listed itself. */
  ghost predicate NamesAreListed(clean: Cleaner, listing: seq<string>) {
    forall p :: p in listing && !Text.AllSpace(p) ==> clean(Text.TrimSpace(p)) in listing
  }

  /** That holds exactly when every listed path's trimmed and cleaned form is listed, too. */
  lemma OtherRecordsAreLeftAloneExactly(clean: Cleaner, root: string, listing: seq<string>)
    ensures LeavesOthers(clean, root, listing) <==> NamesAreListed(clean, listing)
  {
    if NamesAreListed(clean, listing) {
      forall s, batch, t, fewer, batch', u |
        Imports(clean, root, s, listing, batch, t) && Imports(clean, root, t, fewer, batch', u) && Within(fewer, listing)
        ensures Undisturbed(t.docs, u.docs, listing, batch')
      {
        ListedNamesDisturbNothing(clean, root, listing, s, batch, t, fewer, batch', u);
      }
    } else {
      var p :| p in listing && !Text.AllSpace(p) && clean(Text.TrimSpace(p)) !in listing;
      UnlistedNameIsDisturbed(clean, root, listing, p, clean(Text.TrimSpace(p)));
    }
  }

  lemma ListedNamesDisturbNothing(clean: Cleaner, root: string, listing: seq<string>, s: State, batch: seq<Record>, t: State,
                                  fewer: seq<string>, batch': seq<Record>, u: State)
    requires NamesAreListed(clean, listing)
    requires Imports(clean, root, s, listing, batch, t) && Imports(clean, root, t, fewer, batch', u)
    ensures Undisturbed(t.docs, u.docs, listing, batch')
  {
    assert Committed(t.roots, clean(root)) == Normalized(clean, listing);
    forall q | q in StaleOf(clean, t.roots, root, fewer) ensures q in listing {
      CommittedIsListed(clean, listing, q);
    }
  }

  lemma CommittedIsListed(clean: Cleaner, listing: seq<string>, q: string)
    requires NamesAreListed(clean, listing) && q in Normalized(clean, listing)
    ensures q in listing
  {
    NormalizedMeans(clean, listing);
    var i :| 0 <= i < |listing| && !Text.AllSpace(listing[i]) && q == clean(Text.TrimSpace(listing[i]));
    assert listing[i] in listing;
  }

  /** A listed path is committed under a name that is not listed: a record under that name is deleted. */
  lemma UnlistedNameIsDisturbed(clean: Cleaner, root: string, listing: seq<string>, p: string, name: string)
    requires p in listing && !Text.AllSpace(p) && name == clean(Text.TrimSpace(p)) && name !in listing
    ensures !LeavesOthers(clean, root, listing)
  {
    var docs: Docs := map["d:0" := RecordFor(name)];
    var s := State(docs, map[]);
    var t := State(docs, Commit(map[], clean(root), Normalized(clean, listing)));
    var u := State(map[], Commit(t.roots, clean(root), Normalized(clean, [])));
    FirstLeavesIt(clean, root, listing, docs);
    SecondDeletesIt(clean, root, listing, p, name);
    Disturbs(clean, root, listing, s, t, u, name);
  }

  lemma FirstLeavesIt(clean: Cleaner, root: string, listing: seq<string>, docs: Docs)
    requires docs.Keys == {"d:0"}
    ensures Imports(clean, root, State(docs, map[]), listing, [], State(docs, Commit(map[], clean(root), Normalized(clean, listing))))
  {
    var stale := StaleOf(clean, map[], root, listing);
    assert stale == [];
    StaysMerged(docs, "d:0", stale);
    ImportsNothing(clean, root, State(docs, map[]), listing, docs);
  }

  lemma SecondDeletesIt(clean: Cleaner, root: string, listing: seq<string>, p: string, name: string)
    requires p in listing && !Text.AllSpace(p) && name == clean(Text.TrimSpace(p))
    ensures var docs: Docs, roots := map["d:0" := RecordFor(name)], Commit(map[], clean(root), Normalized(clean, listing));
            Imports(clean, root, State(docs, roots), [], [], State(map[], Commit(roots, clean(root), Normalized(clean, []))))
  {
    var docs: Docs, roots := map["d:0" := RecordFor(name)], Commit(map[], clean(root), Normalized(clean, listing));
    var stale := StaleOf(clean, roots, root, []);
    assert name in stale by { NameIsStale(clean, root, listing, p, name); }
    IsMergedAway(docs, stale);
    ImportsNothing(clean, root, State(docs, roots), [], map[]);
  }

  lemma IsMergedAway(docs: Docs, stale: seq<string>)
    requires forall id :: id in docs ==> docs[id].sourcePath in stale
    ensures Merged(docs, map[], [], stale)
  {
  }

  lemma NameIsStale(clean: Cleaner, root: string, listing: seq<string>, p: string, name: string)
    requires p in listing && !Text.AllSpace(p) && name == clean(Text.TrimSpace(p))
    ensures name in StaleOf(clean, Commit(map[], clean(root), Normalized(clean, listing)), root, [])
  {
    NormalizedMeans(clean, listing);
    NamedBy(clean, listing, p, name);
    assert Normalized(clean, []) == [];
    assert Committed(Commit(map[], clean(root), Normalized(clean, listing)), clean(root)) == Normalized(clean, listing);
  }

  lemma Disturbs(clean: Cleaner, root: string, listing: seq<string>, s: State, t: State, u: State, name: string)
    requires Imports(clean, root, s, listing, [], t) && Imports(clean, root, t, [], [], u)
    requires t.docs == map["d:0" := RecordFor(name)] && u.docs == map[] && name !in listing
    ensures !LeavesOthers(clean, root, listing)
  {
    assert Outside("d:0", t.docs["d:0"], []);
    assert !Undisturbed(t.docs, u.docs, listing, []);
    assert Within([], listing);
  }

  function WithoutPath(paths: seq<string>, p: string): (r: seq<string>)
    ensures forall q :: q in r <==> q in paths && q != p
  {
    if paths == [] then []
    else
      assert paths == [paths[0]] + paths[1..];
      (if paths[0] == p then [] else [paths[0]]) + WithoutPath(paths[1..], p)
  }

  function RecordFor(p: string): Record {
    Record("d:0", "d", p, "", "text", 0, 4, map[], [1.0])
  }

  /** A listed path that is not plain: its file is imported and goes away, and its record stays. */
  lemma OddPathStays(clean: Cleaner, root: string, listing: seq<string>, p: string)
    requires p in listing && !Plain(clean, p)
    ensures !DropsWhatGoes(clean, root, listing)
  {
    var fewer := WithoutPath(listing, p);
    var t := State(map["d:0" := RecordFor(p)], Commit(map[], clean(root), Normalized(clean, listing)));
    var u := State(t.docs, Commit(t.roots, clean(root), Normalized(clean, fewer)));
    FirstImport(clean, root, listing, p);
    SecondImport(clean, root, listing, p);
    assert HasPath(u.docs, p) by { assert u.docs["d:0"].sourcePath == p; }
    NotDropped(clean, root, listing, State(map[], map[]), [RecordFor(p)], t, fewer, [], u, p);
  }

  lemma NotDropped(clean: Cleaner, root: string, listing: seq<string>, s: State, batch: seq<Record>, t: State,
                   fewer: seq<string>, batch': seq<Record>, u: State, p: string)
    requires Imports(clean, root, s, listing, batch, t) && Imports(clean, root, t, fewer, batch', u) && Within(fewer, listing)
    requires p in listing && p !in fewer && HasPath(u.docs, p)
    ensures !DropsWhatGoes(clean, root, listing)
  {
    assert !Dropped(u.docs, listing, fewer);
  }

  lemma SecondImport(clean: Cleaner, root: string, listing: seq<string>, p: string)
    requires p in listing && !Plain(clean, p)
    ensures var docs: Docs, roots := map["d:0" := RecordFor(p)], Commit(map[], clean(root), Normalized(clean, listing));
            var fewer := WithoutPath(listing, p);
            Imports(clean, root, State(docs, roots), fewer, [], State(docs, Commit(roots, clean(root), Normalized(clean, fewer))))
  {
    var docs: Docs, roots := map["d:0" := RecordFor(p)], Commit(map[], clean(root), Normalized(clean, listing));
    var stale := StaleOf(clean, roots, root, WithoutPath(listing, p));
    assert p !in stale by {
      assert Committed(roots, clean(root)) == Normalized(clean, listing);
      OddPathIsNotStale(clean, listing, p);
    }
    StaysMerged(docs, "d:0", stale);
    ImportsNothing(clean, root, State(docs, roots), WithoutPath(listing, p), docs);
  }

  lemma ImportsNothing(clean: Cleaner, root: string, s: State, listing: seq<string>, after: Docs)
    requires Merged(s.docs, after, [], StaleOf(clean, s.roots, root, listing))
    ensures Imports(clean, root, s, listing, [], State(after, Commit(s.roots, clean(root), Normalized(clean, listing))))
  {
  }

  lemma StaysMerged(docs: Docs, id: string, stale: seq<string>)
    requires docs.Keys == {id} && docs[id].sourcePath !in stale
    ensures Merged(docs, docs, [], stale)
  {
  }

  lemma OddPathIsNotStale(clean: Cleaner, listing: seq<string>, p: string)
    requires !Plain(clean, p)
    ensures p !in Difference(Normalized(clean, listing), Normalized(clean, WithoutPath(listing, p)))
  {
    var fewer := WithoutPath(listing, p);
    NormalizedMeans(clean, listing);
    NormalizedMeans(clean, fewer);
    if Names(clean, listing, p) {
      OddNameStays(clean, listing, p);
    }
  }

  lemma OddNameStays(clean: Cleaner, listing: seq<string>, p: string)
    requires !Plain(clean, p) && Names(clean, listing, p)
    ensures Names(clean, WithoutPath(listing, p), p)
  {
    var fewer := WithoutPath(listing, p);
    var i :| 0 <= i < |listing| && !Text.AllSpace(listing[i]) && p == clean(Text.TrimSpace(listing[i]));
    assert listing[i] in fewer;
    NamedBy(clean, fewer, listing[i], p);
  }

  lemma FirstImport(clean: Cleaner, root: string, listing: seq<string>, p: string)
    requires p in listing
    ensures Imports(clean, root, State(map[], map[]), listing, [RecordFor(p)],
              State(map["d:0" := RecordFor(p)], Commit(map[], clean(root), Normalized(clean, listing))))
  {
    assert StaleOf(clean, map[], root, listing) == [];
    OneRecordMerges(RecordFor(p));
    assert ValidBatch([RecordFor(p)]);
  }

  lemma OneRecordMerges(r: Record)
    ensures Merged(map[], map[r.chunkId := r], [r], [])
  {
    var batch := [r];
    assert batch[0].chunkId in Ids(batch);
    assert FromEither(map[], r.chunkId, r, batch);
  }

  /** An import in which nothing fails but, perhaps, writing the manifest. */
  method Import(sync: DirectorySyncState, store: ChromemStore, root: string, listing: seq<string>, batch: seq<Record>, persistFails: bool)
    returns (err: Option<SyncError>)
    requires ValidBatch(batch)
    modifies sync, store
    ensures err == if persistFails then Some(PersistFailed) else None
    ensures persistFails ==> sync.roots == old(sync.roots)
    ensures persistFails ==> Merged(old(store.docs), store.docs, batch, StaleOf(sync.clean, old(sync.roots), root, listing))
    ensures !persistFails ==>
      SyncStep(sync.clean, State(old(store.docs), old(sync.roots)), root, listing, batch, true, State(store.docs, sync.roots))
  {
    var calm := EraseFaults(false, None, {}, false);
    err := sync.Sync(store, root, listing, batch, SyncFaults(Unfailing(), calm, persistFails));
  }

  function Unfailing(): Faults {
    Faults(false, false, {}, (i: nat) => Fine, false)
  }

  function Ours(file: string): Record {
    Record("a:0", "a", file, "a", "ours", 0, 4, map[], [1.0])
  }

  function Theirs(file: string): Record {
    Record("b:0", "b", " " + file, "a", "theirs", 0, 6, map[], [1.0])
  }

  function BothDocs(file: string): Docs {
    map["a:0" := Ours(file), "b:0" := Theirs(file)]
  }

  /** A path without outer blanks that cleaning leaves alone. */
  predicate Bare(clean: Cleaner, file: string) {
    file != "" && !Text.IsSpace(file[0]) && !Text.IsSpace(file[|file| - 1]) && clean(file) == file
  }

  /**
   * An instance of a name that is not listed. Two directories, `kb` and one with a blank before that
   * name. The file of the second goes away. The import that notices keeps its chunk and deletes the chunk
   * of the first directory instead, which still commits it.
   */
  method OuterBlankReachesAnotherRoot(clean: Cleaner, kb: string, file: string) returns (sync: DirectorySyncState, store: ChromemStore)
    requires clean(kb) == kb && clean(" " + kb) == " " + kb && Bare(clean, file)
    ensures sync.roots == map[kb := [file]]
    ensures store.docs == map["b:0" := Theirs(file)]
  {
    sync := new DirectorySyncState(clean);
    store := new ChromemStore();
    BlankNames(clean, file);
    OtherName(kb);
    ImportFirst(clean, sync, store, kb, file);
    ImportSecond(clean, sync, store, kb, file);
    ImportGone(clean, sync, store, kb, file);
  }

  lemma OtherName(kb: string)
    ensures " " + kb != kb
  {
    assert |" " + kb| == |kb| + 1;
  }

  /** Both paths are committed under the bare one. */
  ghost predicate SameName(clean: Cleaner, file: string) {
    Normalized(clean, [file]) == [file] && Normalized(clean, [" " + file]) == [file] && Normalized(clean, []) == []
  }

  lemma BlankNames(clean: Cleaner, file: string)
    requires Bare(clean, file)
    ensures SameName(clean, file)
  {
    OneName(clean, file);
    OneName(clean, " " + file);
    LeadingBlankTrims(file);
  }

  lemma LeadingBlankTrims(name: string)
    requires name != "" && !Text.IsSpace(name[0]) && !Text.IsSpace(name[|name| - 1])
    ensures Text.TrimSpace(name) == name && Text.TrimSpace(" " + name) == name
  {
    Text.TrimLeftOf(" ", name);
    assert " "[1..] == "" && Text.TrimLeft(" ") == "";
    assert "" + name == name;
  }

  lemma OneName(clean: Cleaner, p: string)
    requires p != "" && !Text.IsSpace(p[|p| - 1])
    ensures Normalized(clean, [p]) == [clean(Text.TrimSpace(p))]
  {
    var name := clean(Text.TrimSpace(p));
    assert [p][..0] == [];
    assert CleanedPaths(clean, [p]) == [name];
    assert [name][1..] == [] && Sort([name], TextLe) == [name];
  }

  method ImportFirst(clean: Cleaner, sync: DirectorySyncState, store: ChromemStore, kb: string, file: string)
    requires sync.clean == clean && clean(kb) == kb && SameName(clean, file)
    requires State(store.docs, sync.roots) == State(map[], map[])
    modifies sync, store
    ensures State(store.docs, sync.roots) == State(map["a:0" := Ours(file)], map[kb := [file]])
  {
    var err := Import(sync, store, kb, [file], [Ours(file)], false);
    AddsOne(map[], store.docs, Ours(file));
  }

  method ImportSecond(clean: Cleaner, sync: DirectorySyncState, store: ChromemStore, kb: string, file: string)
    requires sync.clean == clean && clean(" " + kb) == " " + kb && " " + kb != kb && SameName(clean, file)
    requires State(store.docs, sync.roots) == State(map["a:0" := Ours(file)], map[kb := [file]])
    modifies sync, store
    ensures State(store.docs, sync.roots) == State(BothDocs(file), map[kb := [file], " " + kb := [file]])
  {
    var err := Import(sync, store, " " + kb, [" " + file], [Theirs(file)], false);
    AddsOne(map["a:0" := Ours(file)], store.docs, Theirs(file));
  }

  method ImportGone(clean: Cleaner, sync: DirectorySyncState, store: ChromemStore, kb: string, file: string)
    requires sync.clean == clean && clean(" " + kb) == " " + kb && " " + kb != kb && SameName(clean, file)
    requires State(store.docs, sync.roots) == State(BothDocs(file), map[kb := [file], " " + kb := [file]])
    modifies sync, store
    ensures State(store.docs, sync.roots) == State(map["b:0" := Theirs(file)], map[kb := [file]])
  {
    var err := Import(sync, store, " " + kb, [], [], false);
    AfterGone(clean, kb, file, State(store.docs, sync.roots));
  }

  lemma AfterGone(clean: Cleaner, kb: string, file: string, t: State)
    requires clean(" " + kb) == " " + kb && " " + kb != kb && SameName(clean, file)
    requires SyncStep(clean, State(BothDocs(file), map[kb := [file], " " + kb := [file]]), " " + kb, [], [], true, t)
    ensures t == State(map["b:0" := Theirs(file)], map[kb := [file]])
  {
    var roots := map[kb := [file], " " + kb := [file]];
    assert StaleOf(clean, roots, " " + kb, []) == [file] by {
      assert Difference([file], []) == [file] by { assert [file][..0] == []; }
    }
    assert t.docs == map["b:0" := Theirs(file)] by { OnlyTheirs(file, t.docs); }
    assert t.roots == roots - {" " + kb};
    DropsOther(kb, " " + kb, [file]);
  }

  lemma DropsOther(a: string, b: string, v: seq<string>)
    requires a != b
    ensures map[a := v, b := v] - {b} == map[a := v]
  {
  }

  lemma OnlyTheirs(file: string, docs: Docs)
    requires Merged(BothDocs(file), docs, [], [file])
    ensures docs == map["b:0" := Theirs(file)]
  {
    var both := BothDocs(file);
    assert |" " + file| == |file| + 1;
    assert Outside("b:0", both["b:0"], []);
    forall id | id in docs ensures id == "b:0" {
      assert FromEither(both, id, docs[id], []);
    }
  }

  /** A batch of one record with nothing stale adds that record. */
  lemma AddsOne(before: Docs, after: Docs, r: Record)
    requires Merged(before, after, [r], [])
    requires r.chunkId !in before && forall id :: id in before ==> before[id].parentId != r.parentId
    ensures after == before[r.chunkId := r]
  {
    var batch := [r];
    assert batch[0] == r && Ids(batch) == {r.chunkId} && Parents(batch) == {r.parentId};
    forall id | id in after ensures id in before[r.chunkId := r] && after[id] == before[r.chunkId := r][id] {
      assert FromEither(before, id, after[id], batch);
    }
    forall id | id in before[r.chunkId := r] ensures id in after {
      if id != r.chunkId { assert Outside(id, before[id], batch); }
    }
  }

  // ---------------------------------------------------------------- what a failure can leave behind

  /**
   * An import stores a new file and then fails to write its manifest. The file disappears. The next
   * import succeeds with nothing to list, and the chunk is still there.
   */
  method FailureCanStrandAFile(clean: Cleaner)
    returns (sync: DirectorySyncState, store: ChromemStore, first: Option<SyncError>, second: Option<SyncError>)
    requires clean("/kb/a") == "/kb/a"
    ensures first == Some(PersistFailed) && second == None
    ensures sync.roots == map[] && store.docs == map["d:0" := RecordFor("/kb/a")]
  {
    sync := new DirectorySyncState(clean);
    store := new ChromemStore();
    first := Import(sync, store, "/kb", ["/kb/a"], [RecordFor("/kb/a")], true);
    assert StaleOf(clean, map[], "/kb", ["/kb/a"]) == [];
    AddsOne(map[], store.docs, RecordFor("/kb/a"));
    ghost var before := State(store.docs, sync.roots);
    second := Import(sync, store, "/kb", [], [], false);
    NothingToDo(clean, before, State(store.docs, sync.roots));
  }

  lemma NothingToDo(clean: Cleaner, s: State, t: State)
    requires SyncStep(clean, s, "/kb", [], [], true, t) && s.roots == map[]
    ensures s == t
  {
    assert Normalized(clean, []) == [];
    forall id | id in s.docs ensures id in t.docs && t.docs[id] == s.docs[id] {
      assert Outside(id, s.docs[id], []);
    }
    forall id | id in t.docs ensures id in s.docs {
      assert FromEither(s.docs, id, t.docs[id], []);
    }
  }
}
