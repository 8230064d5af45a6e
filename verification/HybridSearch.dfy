/** Search over the store with a threshold and a filter, and hybrid retrieval with its fallbacks. */
module HybridSearch {
  import opened Sequences
  import opened Ordering
  import opened ChunkStore
  import opened Retrieval
  import Text

  type Filter = Option<Record -> bool>

  predicate Allows(filter: Filter, chunk: Record) {
    filter.Some? ==> filter.value(chunk)
  }

  predicate Passes(filter: Filter, threshold: real, h: Hit) {
    h.score >= threshold && Allows(filter, h.chunk)
  }

  /** The hits that pass, in their order. */
  function Passing(hits: seq<Hit>, filter: Filter, threshold: real): seq<Hit> {
    if hits == [] then []
    else
      var rest, last := Passing(hits[..|hits| - 1], filter, threshold), hits[|hits| - 1];
      if Passes(filter, threshold, last) then rest + [last] else rest
  }

  ghost predicate Descending(hits: seq<Hit>) {
    forall i, j :: 0 <= i < j < |hits| ==> hits[i].score >= hits[j].score
  }

  lemma {:induction false} PassingMeans(hits: seq<Hit>, filter: Filter, threshold: real)
    ensures forall h :: h in Passing(hits, filter, threshold) <==> h in hits && Passes(filter, threshold, h)
    ensures DistinctHits(hits) ==> DistinctHits(Passing(hits, filter, threshold))
  {
    if hits != [] {
      var front, last := hits[..|hits| - 1], hits[|hits| - 1];
      assert hits == front + [last];
      PassingMeans(front, filter, threshold);
      if DistinctHits(hits) {
        forall h | h in Passing(front, filter, threshold) ensures h.chunk.chunkId != last.chunk.chunkId {
          var i :| 0 <= i < |front| && front[i] == h;
          assert hits[i] == h;
        }
      }
    }
  }

  lemma {:induction false} PassingGrows(hits: seq<Hit>, filter: Filter, threshold: real, i: nat)
    requires i <= |hits|
    ensures Passing(hits[..i], filter, threshold) <= Passing(hits, filter, threshold)
    decreases |hits| - i
  {
    if i == |hits| {
      assert hits[..i] == hits;
    } else {
      assert hits[..i + 1][..i] == hits[..i];
      PassingGrows(hits, filter, threshold, i + 1);
    }
  }

  /** Without a filter it is enough to ask the index for the first `n`: below the threshold nothing rises again. */
  lemma FirstFewSuffice(ranked: seq<Hit>, threshold: real, n: nat)
    requires Descending(ranked) && n <= |ranked|
    ensures Passing(ranked[..n], None, threshold) == FirstN(Passing(ranked, None, threshold), n)
  {
    PassingGrows(ranked, None, threshold, n);
    if forall i :: 0 <= i < n ==> ranked[i].score >= threshold {
      AllPass(ranked[..n], threshold);
    } else {
      var i :| 0 <= i < n && ranked[i].score < threshold;
      RestFails(ranked, threshold, n);
      PassingShorter(ranked[..n], None, threshold);
    }
  }

  lemma {:induction false} AllPass(hits: seq<Hit>, threshold: real)
    requires forall i :: 0 <= i < |hits| ==> hits[i].score >= threshold
    ensures Passing(hits, None, threshold) == hits
  {
    if hits != [] {
      AllPass(hits[..|hits| - 1], threshold);
    }
  }

  lemma {:induction false} PassingShorter(hits: seq<Hit>, filter: Filter, threshold: real)
    ensures |Passing(hits, filter, threshold)| <= |hits|
  {
    if hits != [] {
      PassingShorter(hits[..|hits| - 1], filter, threshold);
    }
  }

  lemma {:induction false} RestFails(ranked: seq<Hit>, threshold: real, n: nat)
    requires Descending(ranked) && n <= |ranked| && exists i :: 0 <= i < n && ranked[i].score < threshold
    ensures Passing(ranked, None, threshold) == Passing(ranked[..n], None, threshold)
    decreases |ranked|
  {
    if n == |ranked| {
      assert ranked[..n] == ranked;
    } else {
      var front := ranked[..|ranked| - 1];
      assert front[..n] == ranked[..n];
      RestFails(front, threshold, n);
    }
  }

  /** What a search returns: the first `topK` passing hits of the whole index. */
  function Selected(ranked: seq<Hit>, filter: Filter, threshold: real, topK: int): seq<Hit> {
    FirstN(Passing(ranked, filter, threshold), topK)
  }

  /** `ranked` is the collection by similarity; the error is the one for a count that is not positive. */
  method SearchWithFilter(ranked: seq<Hit>, filter: Filter, topK: int, threshold: real) returns (r: Option<seq<Hit>>)
    requires Descending(ranked)
    ensures r == if topK <= 0 then None else Some(Selected(ranked, filter, threshold, topK))
  {
    if topK <= 0 {
      return None;
    }
    if |ranked| == 0 {
      return Some([]);
    }
    PassingShorter(ranked, filter, threshold);
    var limit := if topK > |ranked| then |ranked| else topK;
    var results := if filter.Some? then ranked else ranked[..limit];
    FewestResults(ranked, filter, threshold, limit);
    var hits := FirstPassing(results, filter, threshold, limit);
    r := Some(hits);
  }

  lemma FewestResults(ranked: seq<Hit>, filter: Filter, threshold: real, limit: nat)
    requires Descending(ranked) && limit <= |ranked|
    ensures Selected(if filter.Some? then ranked else ranked[..limit], filter, threshold, limit)
         == Selected(ranked, filter, threshold, limit)
  {
    if filter.None? {
      FirstFewSuffice(ranked, threshold, limit);
    }
  }

  /** The loop that skips what does not pass and stops when it has enough. */
  method FirstPassing(results: seq<Hit>, filter: Filter, threshold: real, limit: nat) returns (hits: seq<Hit>)
    requires limit > 0
    ensures hits == Selected(results, filter, threshold, limit)
  {
    hits := [];
    for i := 0 to |results|
      invariant hits == Passing(results[..i], filter, threshold) && |hits| < limit
    {
      assert results[..i + 1][..i] == results[..i];
      if Passes(filter, threshold, results[i]) {
        hits := hits + [results[i]];
        if |hits| == limit {
          PassingGrows(results, filter, threshold, i + 1);
          return;
        }
      }
    }
    assert results[..|results|] == results;
  }

  // ---------------------------------------------------------------- tuning

  datatype Options = Options(candidateMultiplier: int, rrfK: real, rerankMultiplier: int) {
    function Normalize(): Options {
      Options(if candidateMultiplier == 0 then 4 else candidateMultiplier,
              if rrfK == 0.0 then 60.0 else rrfK,
              if rerankMultiplier == 0 then 2 else rerankMultiplier)
    }

    function CandidateLimit(topK: nat): (n: nat)
      ensures n >= topK
    {
      var wide := topK * Normalize().candidateMultiplier;
      if wide > topK then wide else topK
    }

    function ShortlistSize(topK: nat, candidates: nat): (n: nat)
      ensures n <= candidates && (n >= topK || n == candidates)
    {
      var wide := topK * Normalize().rerankMultiplier;
      var n := if wide > topK then wide else topK;
      if n < candidates then n else candidates
    }
  }

  /** How wide the searches and the rerank are: four and two times `topK` unless set, and never below `topK`. */
  lemma WidthsMean(o: Options, topK: nat, candidates: nat)
    ensures o.CandidateLimit(topK) == topK * (if o.candidateMultiplier == 0 then 4 else if o.candidateMultiplier > 0 then o.candidateMultiplier else 1)
    ensures o.ShortlistSize(topK, candidates)
         == Min(topK * (if o.rerankMultiplier == 0 then 2 else if o.rerankMultiplier > 0 then o.rerankMultiplier else 1), candidates)
  {
    Wider(topK, o.candidateMultiplier);
    Wider(topK, o.rerankMultiplier);
  }

  lemma Wider(n: nat, m: int)
    ensures m > 0 ==> n * m >= n
    ensures m < 0 ==> n * m <= n
  {
    if m > 0 {
      assert n * m == n + n * (m - 1);
      assert n * (m - 1) >= 0;
    } else {
      assert n * m <= 0;
    }
  }

  datatype Setup = Setup(topK: nat, threshold: real, hybrid: bool, rerank: bool, opts: Options)

  datatype Stage = HybridStage | RerankStage

  datatype Outcome = Failed | Found(hits: seq<Hit>, fallback: Option<Stage>)

  const MAX_INT: int := 0x7fff_ffff_ffff_ffff

  // ---------------------------------------------------------------- hybrid retrieval

  function VectorHits(c: Setup, all: seq<Hit>): seq<Hit> {
    Selected(all, None, c.threshold, c.opts.CandidateLimit(c.topK))
  }

  /** `fused` is what hybrid retrieval fuses for the filtered hits `all`. */
  ghost predicate IsFused(x: Lexicon, query: string, c: Setup, all: seq<Hit>, fused: seq<Hit>)
    requires c.opts.rrfK >= 0.0
  {
    var limit := c.opts.CandidateLimit(c.topK);
    exists lexical: seq<Hit> :: IsLexicalSearch(x, query, all, limit, lexical)
      && IsFusion(VectorHits(c, all), lexical, limit, c.opts.Normalize().rrfK, fused)
  }

  /** `hits` is what is returned of the fused hits, reranked or cut. */
  ghost predicate IsFinished(x: Lexicon, query: string, c: Setup, fused: seq<Hit>, hits: seq<Hit>) {
    if c.rerank && c.opts.rerankMultiplier >= 0
    then IsRerank(x, query, fused, c.opts.ShortlistSize(c.topK, |fused|), c.topK, hits)
    else hits == FirstN(fused, c.topK)
  }

  /** And so `hits` is what hybrid retrieval returns for `all`. */
  ghost predicate IsHybrid(x: Lexicon, query: string, c: Setup, all: seq<Hit>, hits: seq<Hit>)
    requires c.opts.rrfK >= 0.0
  {
    exists fused: seq<Hit> :: IsFused(x, query, c, all, fused) && IsFinished(x, query, c, fused, hits)
  }

  predicate Tuned(c: Setup) {
    c.hybrid && c.opts.candidateMultiplier >= 0 && c.opts.rrfK >= 0.0
  }

  /**
   * `embedded` says whether the query got a vector, `ranked` is the index by similarity to it;
   * `wideFails` and `narrowFails` are failures of the search for all hits and of the plain search.
   */
  method SearchDetailed(x: Lexicon, query: string, c: Setup, filter: Filter, embedded: bool, ranked: seq<Hit>,
                        wideFails: bool, narrowFails: bool) returns (out: Outcome)
    requires Descending(ranked) && c.topK > 0
    ensures out.Failed? <==> Text.Blank(query) || !embedded || (narrowFails && (!Tuned(c) || wideFails))
    ensures out.Found? && (!Tuned(c) || wideFails) ==> out.hits == Selected(ranked, filter, c.threshold, c.topK)
    ensures out.Found? && Tuned(c) && !wideFails ==> IsHybrid(x, query, c, Selected(ranked, filter, -1.0, MAX_INT), out.hits)
    ensures out.Found? ==> out.fallback == Fallback(c, wideFails, Selected(ranked, filter, -1.0, MAX_INT) == [])
    ensures out.Found? ==> (out.fallback == Some(HybridStage) <==>
              c.hybrid && (c.opts.candidateMultiplier < 0 || c.opts.rrfK < 0.0 || wideFails))
    ensures out.Found? ==> (out.fallback == Some(RerankStage) <==>
              Tuned(c) && !wideFails && c.rerank && c.opts.rerankMultiplier < 0 && Selected(ranked, filter, -1.0, MAX_INT) != [])
  {
    if Text.TrimSpace(query) == "" || !embedded {
      return Failed;
    }
    if !c.hybrid {
      out := VectorOnly(c, filter, ranked, narrowFails, None);
      return;
    }
    if c.opts.candidateMultiplier < 0 || c.opts.rrfK < 0.0 {
      out := VectorOnly(c, filter, ranked, narrowFails, Some(HybridStage));
      return;
    }
    if wideFails {
      out := VectorOnly(c, filter, ranked, narrowFails, Some(HybridStage));
      return;
    }
    var searched := SearchWithFilter(ranked, filter, MAX_INT, -1.0);
    var allHits := searched.value;
    if |allHits| == 0 {
      NothingToFuse(x, query, c);
      return Found([], None);
    }
    var fused := Fuse(x, query, c, allHits);
    if c.rerank && c.opts.rerankMultiplier >= 0 {
      var hits := RerankShortlistWithLimit(x, query, fused, c.opts.ShortlistSize(c.topK, |fused|), c.topK);
      return Found(hits, None);
    }
    out := Found(FirstN(fused, c.topK), if c.rerank then Some(RerankStage) else None);
  }

  function Fallback(c: Setup, wideFails: bool, nothing: bool): Option<Stage> {
    if !c.hybrid then None
    else if !Tuned(c) || wideFails then Some(HybridStage)
    else if c.rerank && c.opts.rerankMultiplier < 0 && !nothing then Some(RerankStage)
    else None
  }

  method VectorOnly(c: Setup, filter: Filter, ranked: seq<Hit>, fails: bool, fallback: Option<Stage>) returns (out: Outcome)
    requires Descending(ranked) && c.topK > 0
    ensures out == if fails then Failed else Found(Selected(ranked, filter, c.threshold, c.topK), fallback)
  {
    if fails {
      return Failed;
    }
    var hits := SearchWithFilter(ranked, filter, c.topK, c.threshold);
    out := Found(hits.value, fallback);
  }

  method Fuse(x: Lexicon, query: string, c: Setup, all: seq<Hit>) returns (fused: seq<Hit>)
    requires c.topK > 0 && c.opts.rrfK >= 0.0
    ensures IsFused(x, query, c, all, fused)
  {
    var limit := c.opts.CandidateLimit(c.topK);
    var vectorHits := FirstPassing(all, None, c.threshold, limit);
    var lexicalHits := LexicalSearch(x, query, all, limit);
    fused := FuseRRFWithK(vectorHits, lexicalHits, limit, c.opts.Normalize().rrfK);
  }

  lemma NothingToFuse(x: Lexicon, query: string, c: Setup)
    requires c.opts.rrfK >= 0.0
    ensures IsHybrid(x, query, c, [], [])
  {
    var limit, k := c.opts.CandidateLimit(c.topK), c.opts.Normalize().rrfK;
    NothingRanked(multiset{}, limit);
    assert IsLexicalSearch(x, query, [], limit, []);
    assert AllFused([], [], k) == {};
    assert IsFusion(VectorHits(c, []), [], limit, k, []);
    assert IsFused(x, query, c, [], []);
    var shortlist := FirstN<Hit>([], c.opts.ShortlistSize(c.topK, 0));
    NothingRanked(multiset(Rescored(x, x.tokens(query), shortlist)), c.topK);
    assert IsRerank(x, query, [], c.opts.ShortlistSize(c.topK, 0), c.topK, []);
  }

  // ---------------------------------------------------------------- what hybrid retrieval promises

  /** From the filtered hits, and near enough or about the query. */
  ghost predicate Sound(x: Lexicon, query: string, c: Setup, all: seq<Hit>, chunk: Record) {
    exists h :: h in all && h.chunk == chunk
                && (h.score >= c.threshold || exists token :: token in x.tokens(query) && Matched(x, chunk, token))
  }

  lemma {:induction false} LexicalOneEach(x: Lexicon, tokens: seq<string>, candidates: seq<Hit>)
    requires DistinctHits(candidates)
    ensures OneEach(multiset(Matches(x, tokens, candidates)))
    ensures forall s :: s in Matches(x, tokens, candidates) ==> exists h :: h in candidates && h.chunk == s.chunk
  {
    if candidates != [] {
      var front, last := candidates[..|candidates| - 1], candidates[|candidates| - 1];
      assert candidates == front + [last];
      LexicalOneEach(x, tokens, front);
      forall s | s in Matches(x, tokens, front) ensures s.chunk.chunkId != last.chunk.chunkId {
        var h :| h in front && h.chunk == s.chunk;
        var i :| 0 <= i < |front| && front[i] == h;
        assert candidates[i] == h;
      }
    }
  }

  lemma FusedIsSound(x: Lexicon, query: string, c: Setup, all: seq<Hit>, fused: seq<Hit>)
    requires c.opts.rrfK >= 0.0 && DistinctHits(all) && IsFused(x, query, c, all, fused)
    ensures DistinctHits(fused)
    ensures forall h :: h in fused ==> Sound(x, query, c, all, h.chunk)
  {
    var limit, k := c.opts.CandidateLimit(c.topK), c.opts.Normalize().rrfK;
    var lexical :| IsLexicalSearch(x, query, all, limit, lexical) && IsFusion(VectorHits(c, all), lexical, limit, k, fused);
    FusionComesFrom(VectorHits(c, all), lexical, limit, k, fused);
    forall h | h in fused ensures Sound(x, query, c, all, h.chunk) {
      var g: Hit :| g in VectorHits(c, all) + lexical && g.chunk == h.chunk;
      if g in VectorHits(c, all) {
        VectorIsSound(x, query, c, all, g);
      } else {
        LexicalIsSound(x, query, c, all, lexical, g);
      }
    }
  }

  lemma VectorIsSound(x: Lexicon, query: string, c: Setup, all: seq<Hit>, g: Hit)
    requires g in VectorHits(c, all)
    ensures Sound(x, query, c, all, g.chunk)
  {
    PassingMeans(all, None, c.threshold);
    assert g in Passing(all, None, c.threshold);
  }

  lemma LexicalIsSound(x: Lexicon, query: string, c: Setup, all: seq<Hit>, lexical: seq<Hit>, g: Hit)
    requires DistinctHits(all) && IsLexicalSearch(x, query, all, c.opts.CandidateLimit(c.topK), lexical) && g in lexical
    ensures Sound(x, query, c, all, g.chunk)
  {
    var tokens := x.tokens(query);
    LexicalOneEach(x, tokens, all);
    RankingMeans(lexical, multiset(Matches(x, tokens, all)), c.opts.CandidateLimit(c.topK));
    var s :| s in multiset(Matches(x, tokens, all)) && g == Strip(s);
    MatchesMean(x, tokens, all, s);
    ScoreMeansToken(x, tokens, s.chunk);
  }

  lemma RerankIsSelection(x: Lexicon, query: string, fused: seq<Hit>, shortlist: nat, topK: nat, hits: seq<Hit>)
    requires DistinctHits(fused) && IsRerank(x, query, fused, shortlist, topK, hits)
    requires shortlist == |fused| || topK <= shortlist < |fused|
    ensures DistinctHits(hits) && |hits| == if topK < |fused| then topK else |fused|
    ensures forall h :: h in hits ==> exists g :: g in fused && g.chunk == h.chunk
  {
    var short, tokens := FirstN(fused, shortlist), x.tokens(query);
    var all := multiset(Rescored(x, tokens, short));
    RescoredOneEach(x, tokens, short);
    RankingMeans(hits, all, topK);
    assert |all| == |Rescored(x, tokens, short)|;
    forall h | h in hits ensures exists g :: g in fused && g.chunk == h.chunk {
      var s :| s in all && h == Strip(s);
      var g: Hit :| g in short && g.chunk == s.chunk;
    }
  }

  lemma FinishedMeans(x: Lexicon, query: string, c: Setup, fused: seq<Hit>, hits: seq<Hit>)
    requires DistinctHits(fused) && IsFinished(x, query, c, fused, hits)
    ensures DistinctHits(hits) && |hits| == if c.topK < |fused| then c.topK else |fused|
    ensures forall h :: h in hits ==> exists g :: g in fused && g.chunk == h.chunk
  {
    if c.rerank && c.opts.rerankMultiplier >= 0 {
      var shortlist := c.opts.ShortlistSize(c.topK, |fused|);
      RerankIsSelection(x, query, fused, shortlist, c.topK, hits);
    } else {
      assert forall i :: 0 <= i < |hits| ==> hits[i] == fused[i] && fused[i] in fused;
    }
  }

  lemma FinishedIsUnique(x: Lexicon, query: string, c: Setup, fused: seq<Hit>, a: seq<Hit>, b: seq<Hit>)
    requires DistinctHits(fused) && IsFinished(x, query, c, fused, a) && IsFinished(x, query, c, fused, b)
    ensures a == b
  {
    if c.rerank && c.opts.rerankMultiplier >= 0 {
      var short := FirstN(fused, c.opts.ShortlistSize(c.topK, |fused|));
      RescoredOneEach(x, x.tokens(query), short);
      RankingIsUnique(a, b, multiset(Rescored(x, x.tokens(query), short)), c.topK);
    }
  }

  /**
   * Every hybrid result has at most `topK` hits, no chunk twice, and only chunks of the filtered hits
   * that are at or above the threshold or match a token of the query.
   */
  lemma HybridIsSound(x: Lexicon, query: string, c: Setup, all: seq<Hit>, hits: seq<Hit>)
    requires c.opts.rrfK >= 0.0 && DistinctHits(all) && IsHybrid(x, query, c, all, hits)
    ensures |hits| <= c.topK && DistinctHits(hits)
    ensures forall h :: h in hits ==> Sound(x, query, c, all, h.chunk)
  {
    var fused :| IsFused(x, query, c, all, fused) && IsFinished(x, query, c, fused, hits);
    FusedIsSound(x, query, c, all, fused);
    FinishedMeans(x, query, c, fused, hits);
    forall h | h in hits ensures Sound(x, query, c, all, h.chunk) {
      var g: Hit :| g in fused && g.chunk == h.chunk;
    }
  }

  /** The filtered hits are the index's own, each once. */
  lemma SelectedMeans(ranked: seq<Hit>, filter: Filter, threshold: real, topK: int)
    requires DistinctHits(ranked)
    ensures DistinctHits(Selected(ranked, filter, threshold, topK))
    ensures forall h :: h in Selected(ranked, filter, threshold, topK) ==> h in ranked && Passes(filter, threshold, h)
  {
    PassingMeans(ranked, filter, threshold);
  }

  /** Nothing is lost on the way: with or without a rerank, as many hits as there are fused ones, up to `topK`. */
  lemma HybridIsFull(x: Lexicon, query: string, c: Setup, all: seq<Hit>, fused: seq<Hit>, hits: seq<Hit>)
    requires c.opts.rrfK >= 0.0 && DistinctHits(all) && IsFused(x, query, c, all, fused) && IsHybrid(x, query, c, all, hits)
    ensures |hits| == if c.topK < |fused| then c.topK else |fused|
  {
    var other :| IsFused(x, query, c, all, other) && IsFinished(x, query, c, other, hits);
    FusedIsUnique(x, query, c, all, fused, other);
    FusedIsSound(x, query, c, all, other);
    FinishedMeans(x, query, c, other, hits);
  }

  lemma FusedIsUnique(x: Lexicon, query: string, c: Setup, all: seq<Hit>, a: seq<Hit>, b: seq<Hit>)
    requires c.opts.rrfK >= 0.0 && DistinctHits(all) && IsFused(x, query, c, all, a) && IsFused(x, query, c, all, b)
    ensures a == b
  {
    var limit, k := c.opts.CandidateLimit(c.topK), c.opts.Normalize().rrfK;
    var p :| IsLexicalSearch(x, query, all, limit, p) && IsFusion(VectorHits(c, all), p, limit, k, a);
    var q :| IsLexicalSearch(x, query, all, limit, q) && IsFusion(VectorHits(c, all), q, limit, k, b);
    LexicalOneEach(x, x.tokens(query), all);
    RankingIsUnique(p, q, multiset(Matches(x, x.tokens(query), all)), limit);
    AllFusedOneEach(VectorHits(c, all), p, k);
    RankingIsUnique(a, b, multiset(AllFused(VectorHits(c, all), p, k)), limit);
  }

  /** The result is determined by the index and the query: map iteration and sorting leave no choice. */
  lemma HybridIsDetermined(x: Lexicon, query: string, c: Setup, all: seq<Hit>, a: seq<Hit>, b: seq<Hit>)
    requires c.opts.rrfK >= 0.0 && DistinctHits(all) && IsHybrid(x, query, c, all, a) && IsHybrid(x, query, c, all, b)
    ensures a == b
  {
    var p :| IsFused(x, query, c, all, p) && IsFinished(x, query, c, p, a);
    var q :| IsFused(x, query, c, all, q) && IsFinished(x, query, c, q, b);
    FusedIsUnique(x, query, c, all, p, q);
    FusedIsSound(x, query, c, all, p);
    FinishedIsUnique(x, query, c, p, a, b);
  }

  /** Without a rerank, the wider candidate limit does not show: the result is the fusion cut at `topK`. */
  lemma HybridIsTheBestOfFusion(x: Lexicon, query: string, c: Setup, all: seq<Hit>, hits: seq<Hit>)
    requires c.opts.rrfK >= 0.0 && IsHybrid(x, query, c, all, hits) && !c.rerank
    ensures exists lexical: seq<Hit> ::
      IsLexicalSearch(x, query, all, c.opts.CandidateLimit(c.topK), lexical) && IsFusion(VectorHits(c, all), lexical, c.topK, c.opts.Normalize().rrfK, hits)
  {
    var limit, k := c.opts.CandidateLimit(c.topK), c.opts.Normalize().rrfK;
    var fused :| IsFused(x, query, c, all, fused) && IsFinished(x, query, c, fused, hits);
    var lexical :| IsLexicalSearch(x, query, all, limit, lexical) && IsFusion(VectorHits(c, all), lexical, limit, k, fused);
    RankingCut(fused, multiset(AllFused(VectorHits(c, all), lexical, k)), limit, c.topK);
  }

  lemma RankingCut(r: seq<Hit>, all: multiset<Scored>, n: nat, m: nat)
    requires Ranks(r, all, n) && m <= n
    ensures Ranks(FirstN(r, m), all, m)
  {
    var top :| IsTop(top, all, RankLe, n) && r == Strips(top);
    var cut := if m < |top| then top[..m] else top;
    assert IsTop(cut, all, RankLe, m) by { CutOfTop(top, all, RankLe, n, m); }
    assert FirstN(r, m) == Strips(cut);
  }
}
