/** Ranking of search hits: lexical search, reciprocal rank fusion, and the rule-based rerank. Scores are exact. */
module Retrieval {
  import opened Sequences
  import opened Ordering
  import opened ChunkStore

  datatype Hit = Hit(chunk: Record, score: real)

  /** A chunk being ranked: by score, then by the tie-break, both descending, then by identifier. */
  datatype Scored = Scored(chunk: Record, score: real, tie: real)

  predicate RankLe(a: Scored, b: Scored) {
    a.score > b.score || (a.score == b.score && TieLe(a, b))
  }

  predicate TieLe(a: Scored, b: Scored) {
    a.tie > b.tie || (a.tie == b.tie && TextLe(a.chunk.chunkId, b.chunk.chunkId))
  }

  lemma RankComparison()
    ensures Comparison(RankLe)
  {
    TextComparison();
    forall a, b ensures RankLe(a, b) || RankLe(b, a) {
      assert TextLe(a.chunk.chunkId, b.chunk.chunkId) || TextLe(b.chunk.chunkId, a.chunk.chunkId);
    }
    forall a, b, c | RankLe(a, b) && RankLe(b, c) ensures RankLe(a, c) {
      if TextLe(a.chunk.chunkId, b.chunk.chunkId) && TextLe(b.chunk.chunkId, c.chunk.chunkId) {
        assert TextLe(a.chunk.chunkId, c.chunk.chunkId);
      }
    }
  }

  /** Every identifier occurs once. */
  ghost predicate DistinctIds(all: multiset<Scored>) {
    forall a, b :: a in all && b in all && a.chunk.chunkId == b.chunk.chunkId ==> a == b
  }

  lemma RankDecides(all: multiset<Scored>)
    requires DistinctIds(all)
    ensures Decides(RankLe, all)
  {
    forall a, b | a in all && b in all && RankLe(a, b) && RankLe(b, a) ensures a == b {
      TextTotal(a.chunk.chunkId, b.chunk.chunkId);
    }
  }

  function Strip(s: Scored): Hit {
    Hit(s.chunk, s.score)
  }

  function Strips(s: seq<Scored>): (r: seq<Hit>)
    ensures |r| == |s| && forall i :: 0 <= i < |s| ==> r[i] == Strip(s[i])
  {
    seq(|s|, i requires 0 <= i < |s| => Strip(s[i]))
  }

  /** `r` is a best selection of at most `n` of the scored chunks, in order. */
  ghost predicate Ranks(r: seq<Hit>, all: multiset<Scored>, n: nat) {
    exists top: seq<Scored> :: IsTop(top, all, RankLe, n) && r == Strips(top)
  }

  /** There is only one, so neither the sorting algorithm nor the order it starts from matters. */
  lemma RankingIsUnique(a: seq<Hit>, b: seq<Hit>, all: multiset<Scored>, n: nat)
    requires DistinctIds(all) && Ranks(a, all, n) && Ranks(b, all, n)
    ensures a == b
  {
    var x :| IsTop(x, all, RankLe, n) && a == Strips(x);
    var y :| IsTop(y, all, RankLe, n) && b == Strips(y);
    RankComparison();
    RankDecides(all);
    TopIsUnique(x, SomeSeq(all), RankLe, n);
    TopIsUnique(y, SomeSeq(all), RankLe, n);
  }

  /** The library's sort: some arrangement in order. */
  method SortFunc(s: seq<Scored>) returns (r: seq<Scored>)
    ensures multiset(r) == multiset(s) && Sorted(r, RankLe)
  {
    RankComparison();
    SortSorts(s, RankLe);
    SortKeeps(s, RankLe);
    r := Sort(s, RankLe);
  }

  method Cut(s: seq<Scored>, topK: nat) returns (r: seq<Scored>)
    ensures IsTop(r, multiset(s), RankLe, topK)
  {
    r := SortFunc(s);
    CutIsTop(r, RankLe, topK);
    if |r| > topK {
      r := r[..topK];
    }
  }

  method SortAndCut(s: seq<Scored>, topK: nat) returns (out: seq<Hit>)
    ensures Ranks(out, multiset(s), topK)
  {
    var scoredHits := Cut(s, topK);
    out := [];
    for i := 0 to |scoredHits|
      invariant out == Strips(scoredHits[..i])
    {
      out := out + [Strip(scoredHits[i])];
    }
    assert scoredHits[..|scoredHits|] == scoredHits;
  }

  // ---------------------------------------------------------------- lexical search

  /** How queries become tokens and texts are compared. */
  datatype Lexicon = Lexicon(tokens: string -> seq<string>, lower: string -> string)

  predicate Contains(text: string, token: string) {
    token <= text || (text != "" && Contains(text[1..], token))
  }

  predicate Matched(x: Lexicon, chunk: Record, token: string) {
    Contains(x.lower(chunk.title + " " + chunk.text), token)
  }

  function LexicalScore(x: Lexicon, tokens: seq<string>, chunk: Record): nat {
    Count(tokens, token => Matched(x, chunk, token))
  }

  method LexicalScoreOf(x: Lexicon, tokens: seq<string>, chunk: Record) returns (score: nat)
    ensures score == LexicalScore(x, tokens, chunk)
  {
    score := 0;
    for i := 0 to |tokens|
      invariant score == LexicalScore(x, tokens[..i], chunk)
    {
      assert tokens[..i + 1][..i] == tokens[..i];
      if Matched(x, chunk, tokens[i]) {
        score := score + 1;
      }
    }
    assert tokens[..|tokens|] == tokens;
  }

  /** The candidates that match a token, with their scores. */
  function Matches(x: Lexicon, tokens: seq<string>, candidates: seq<Hit>): seq<Scored> {
    if candidates == [] then []
    else
      var rest, last := Matches(x, tokens, candidates[..|candidates| - 1]), candidates[|candidates| - 1];
      var score := LexicalScore(x, tokens, last.chunk);
      if score == 0 then rest else rest + [Scored(last.chunk, score as real, last.score)]
  }

  ghost predicate IsLexicalSearch(x: Lexicon, query: string, candidates: seq<Hit>, topK: nat, r: seq<Hit>) {
    Ranks(r, multiset(Matches(x, x.tokens(query), candidates)), topK)
  }

  method LexicalSearch(x: Lexicon, query: string, candidates: seq<Hit>, topK: nat) returns (r: seq<Hit>)
    ensures IsLexicalSearch(x, query, candidates, topK, r)
  {
    var tokens := x.tokens(query);
    if topK == 0 || candidates == [] || tokens == [] {
      NothingMatches(x, tokens, candidates);
      NothingRanked(multiset(Matches(x, tokens, candidates)), topK);
      return [];
    }
    var scored := [];
    for i := 0 to |candidates|
      invariant scored == Matches(x, tokens, candidates[..i])
    {
      assert candidates[..i + 1][..i] == candidates[..i];
      var score := LexicalScoreOf(x, tokens, candidates[i].chunk);
      if score > 0 {
        scored := scored + [Scored(candidates[i].chunk, score as real, candidates[i].score)];
      }
    }
    assert candidates[..|candidates|] == candidates;
    r := SortAndCut(scored, topK);
  }

  lemma {:induction false} NothingMatches(x: Lexicon, tokens: seq<string>, candidates: seq<Hit>)
    ensures tokens == [] || candidates == [] ==> Matches(x, tokens, candidates) == []
  {
    if tokens == [] && candidates != [] {
      NothingMatches(x, tokens, candidates[..|candidates| - 1]);
    }
  }

  lemma NothingRanked(all: multiset<Scored>, n: nat)
    requires n == 0 || all == multiset{}
    ensures Ranks([], all, n)
  {
    assert IsTop([], all, RankLe, n);
    assert [] == Strips([]);
  }

  /** A lexical match is a candidate that contains a token of the query, and every such candidate is one. */
  lemma {:induction false} MatchesMean(x: Lexicon, tokens: seq<string>, candidates: seq<Hit>, s: Scored)
    ensures s in Matches(x, tokens, candidates) <==>
      exists h :: h in candidates && LexicalScore(x, tokens, h.chunk) > 0
                  && s == Scored(h.chunk, LexicalScore(x, tokens, h.chunk) as real, h.score)
  {
    if candidates != [] {
      var front, last := candidates[..|candidates| - 1], candidates[|candidates| - 1];
      assert candidates == front + [last];
      MatchesMean(x, tokens, front, s);
    }
  }

  lemma ScoreMeansToken(x: Lexicon, tokens: seq<string>, chunk: Record)
    ensures LexicalScore(x, tokens, chunk) > 0 <==> exists token :: token in tokens && Matched(x, chunk, token)
  {
    var p := token => Matched(x, chunk, token);
    if LexicalScore(x, tokens, chunk) > 0 {
      var i := CountWitness(tokens, p);
      assert tokens[i] in tokens && Matched(x, chunk, tokens[i]);
    } else {
      CountZero(tokens, p);
      forall token | token in tokens ensures !Matched(x, chunk, token) {
        var i :| 0 <= i < |tokens| && tokens[i] == token;
        assert !p(tokens[i]);
      }
    }
  }

  predicate StandsAt(text: string, token: string, i: nat)
    requires i <= |text|
  {
    token <= text[i..]
  }

  /** The token stands somewhere in the text. */
  ghost predicate Occurs(text: string, token: string) {
    exists i: nat :: i <= |text| && StandsAt(text, token, i)
  }

  lemma {:induction false} ContainsMeans(text: string, token: string)
    ensures Contains(text, token) <==> Occurs(text, token)
    decreases |text|
  {
    assert text[0..] == text;
    assert StandsAt(text, token, 0) <==> token <= text;
    if text != "" {
      ContainsMeans(text[1..], token);
      OccursLater(text, token);
    }
  }

  lemma OccursLater(text: string, token: string)
    requires text != ""
    ensures Occurs(text, token) <==> StandsAt(text, token, 0) || Occurs(text[1..], token)
  {
    forall i: nat | i < |text| ensures StandsAt(text[1..], token, i) <==> StandsAt(text, token, i + 1) {
      assert text[1..][i..] == text[i + 1..];
    }
    if i: nat :| i <= |text| && StandsAt(text, token, i) && i > 0 {
      assert StandsAt(text[1..], token, i - 1);
    }
  }

  /** The places of the tokens that occur in the lower-cased title and text. */
  ghost function Occurring(x: Lexicon, tokens: seq<string>, chunk: Record): set<int> {
    OccurringIn(x.lower(chunk.title + " " + chunk.text), tokens)
  }

  ghost function OccurringIn(text: string, tokens: seq<string>): set<int> {
    set j | 0 <= j < |tokens| && Occurs(text, tokens[j])
  }

  lemma OccurringOneMore(text: string, tokens: seq<string>, n: nat)
    requires |tokens| == n + 1
    ensures |OccurringIn(text, tokens)| == |OccurringIn(text, tokens[..n])| + (if Occurs(text, tokens[n]) then 1 else 0)
  {
    var before := OccurringIn(text, tokens[..n]);
    assert OccurringIn(text, tokens) == before + (if Occurs(text, tokens[n]) then {n} else {});
  }

  /** The lexical score is the number of tokens that occur in the chunk. */
  lemma {:induction false} ScoreCountsTokens(x: Lexicon, tokens: seq<string>, chunk: Record)
    ensures LexicalScore(x, tokens, chunk) == |Occurring(x, tokens, chunk)|
  {
    if tokens != [] {
      var n := |tokens| - 1;
      ScoreCountsTokens(x, tokens[..n], chunk);
      ContainsMeans(x.lower(chunk.title + " " + chunk.text), tokens[n]);
      OccurringOneMore(x.lower(chunk.title + " " + chunk.text), tokens, n);
    }
  }

  // ---------------------------------------------------------------- reciprocal rank fusion

  function IdsIn(hits: seq<Hit>): set<string> {
    set i | 0 <= i < |hits| :: hits[i].chunk.chunkId
  }

  /** One over the constant plus the rank, for every place the identifier has in the list. */
  function RankSum(hits: seq<Hit>, k: real, id: string): real
    requires k >= 0.0
  {
    if hits == [] then 0.0
    else
      RankSum(hits[..|hits| - 1], k, id)
      + (if hits[|hits| - 1].chunk.chunkId == id then 1.0 / (k + |hits| as real) else 0.0)
  }

  /** The score of the identifier's last place in the list. */
  function LastScore(hits: seq<Hit>, id: string): real {
    if hits == [] then 0.0
    else if hits[|hits| - 1].chunk.chunkId == id then hits[|hits| - 1].score
    else LastScore(hits[..|hits| - 1], id)
  }

  /** The chunk at the identifier's first place; an empty identifier never settles on one. */
  function ChunkFor(hits: seq<Hit>, id: string): Option<Record> {
    if hits == [] then None
    else
      var before, last := ChunkFor(hits[..|hits| - 1], id), hits[|hits| - 1].chunk;
      if last.chunkId == id && (before.None? || id == "") then Some(last) else before
  }

  lemma {:induction false} ChunkForIsFirst(hits: seq<Hit>, id: string)
    ensures ChunkFor(hits, id).Some? <==> id in IdsIn(hits)
    ensures ChunkFor(hits, id).Some? && id != "" ==>
      exists i :: 0 <= i < |hits| && hits[i].chunk == ChunkFor(hits, id).value && hits[i].chunk.chunkId == id && id !in IdsIn(hits[..i])
    ensures ChunkFor(hits, id).Some? ==> ChunkFor(hits, id).value.chunkId == id
    ensures ChunkFor(hits, id).Some? ==> exists h :: h in hits && h.chunk == ChunkFor(hits, id).value
  {
    if hits != [] {
      var n := |hits| - 1;
      var front := hits[..n];
      ChunkForIsFirst(front, id);
      assert hits == front + [hits[n]];
      if ChunkFor(front, id).Some? && id != "" {
        var i :| 0 <= i < n && front[i].chunk == ChunkFor(front, id).value && front[i].chunk.chunkId == id && id !in IdsIn(front[..i]);
        assert front[..i] == hits[..i] && hits[i] == front[i];
      }
    }
  }

  function Fused(vector: seq<Hit>, lexical: seq<Hit>, k: real, id: string): Option<Scored>
    requires k >= 0.0
  {
    match ChunkFor(vector + lexical, id)
    case None => None
    case Some(chunk) => Some(Scored(chunk, RankSum(vector, k, id) + RankSum(lexical, k, id), LastScore(vector, id)))
  }

  /** Everything there is to rank: one entry for each identifier in either list. */
  ghost function AllFused(vector: seq<Hit>, lexical: seq<Hit>, k: real): set<Scored>
    requires k >= 0.0
  {
    set id | id in IdsIn(vector) + IdsIn(lexical) && Fused(vector, lexical, k, id).Some? :: Fused(vector, lexical, k, id).value
  }

  ghost predicate IsFusion(vector: seq<Hit>, lexical: seq<Hit>, topK: nat, k: real, r: seq<Hit>)
    requires k >= 0.0
  {
    Ranks(r, multiset(AllFused(vector, lexical, k)), topK)
  }

  /** The score map after both lists have been read up to here. */
  ghost predicate Tallied(items: map<string, Scored>, vector: seq<Hit>, lexical: seq<Hit>, k: real)
    requires k >= 0.0
  {
    && items.Keys == IdsIn(vector) + IdsIn(lexical)
    && forall id :: id in items ==> Fused(vector, lexical, k, id) == Some(items[id])
  }

  function Add(items: map<string, Scored>, rank: nat, hit: Hit, vector: bool, k: real): map<string, Scored>
    requires k >= 0.0
  {
    var id := hit.chunk.chunkId;
    var item := if id in items then items[id] else Scored(hit.chunk, 0.0, 0.0);
    var chunk := if item.chunk.chunkId == "" then hit.chunk else item.chunk;
    items[id := Scored(chunk, item.score + 1.0 / (k + (rank + 1) as real), if vector then hit.score else item.tie)]
  }

  /** The entry of an identifier once one more hit has been read. */
  function Grown(item: Option<Scored>, hit: Hit, rank: nat, vector: bool, k: real): Scored
    requires k >= 0.0
  {
    var was := if item.Some? then item.value else Scored(hit.chunk, 0.0, 0.0);
    var chunk := if item.None? || hit.chunk.chunkId == "" then hit.chunk else was.chunk;
    Scored(chunk, was.score + 1.0 / (k + (rank + 1) as real), if vector then hit.score else was.tie)
  }

  lemma OneMoreVector(a: seq<Hit>, hit: Hit, k: real, id: string)
    requires k >= 0.0
    ensures Fused(a + [hit], [], k, id)
         == if hit.chunk.chunkId == id then Some(Grown(Fused(a, [], k, id), hit, |a|, true, k)) else Fused(a, [], k, id)
  {
    var b := a + [hit];
    assert b[..|b| - 1] == a && a + [] == a && b + [] == b;
    if ChunkFor(a, id).None? {
      ChunkForIsFirst(a, id);
      AbsentAddsNothing(a, k, id);
    }
  }

  lemma OneMoreLexical(vector: seq<Hit>, a: seq<Hit>, hit: Hit, k: real, id: string)
    requires k >= 0.0
    ensures Fused(vector, a + [hit], k, id)
         == if hit.chunk.chunkId == id then Some(Grown(Fused(vector, a, k, id), hit, |a|, false, k)) else Fused(vector, a, k, id)
  {
    var b := a + [hit];
    assert b[..|b| - 1] == a && (vector + b)[..|vector + b| - 1] == vector + a;
    if ChunkFor(vector + a, id).None? {
      ChunkForIsFirst(vector + a, id);
      IdsOfBoth(vector, a);
      AbsentAddsNothing(a, k, id);
      AbsentAddsNothing(vector, k, id);
    }
  }

  lemma AddIsGrown(items: map<string, Scored>, rank: nat, hit: Hit, vector: bool, k: real)
    requires k >= 0.0 && Keyed(items)
    ensures var id := hit.chunk.chunkId;
            var item := if id in items then Some(items[id]) else None;
            Add(items, rank, hit, vector, k) == items[id := Grown(item, hit, rank, vector, k)]
  {
  }

  lemma AddVector(items: map<string, Scored>, vector: seq<Hit>, i: nat, k: real)
    requires k >= 0.0 && i < |vector| && Tallied(items, vector[..i], [], k)
    ensures Tallied(Add(items, i, vector[i], true, k), vector[..i + 1], [], k)
  {
    var a, hit := vector[..i], vector[i];
    assert vector[..i + 1] == a + [hit];
    EntriesAreFused(items, a, [], k);
    AddIsGrown(items, i, hit, true, k);
    IdsGrow(a, hit);
    AbsentIsNone(a, [], k, hit.chunk.chunkId);
    forall id ensures Fused(a + [hit], [], k, id)
      == if hit.chunk.chunkId == id then Some(Grown(Fused(a, [], k, id), hit, i, true, k)) else Fused(a, [], k, id)
    {
      OneMoreVector(a, hit, k, id);
    }
  }

  lemma AddLexical(items: map<string, Scored>, vector: seq<Hit>, lexical: seq<Hit>, i: nat, k: real)
    requires k >= 0.0 && i < |lexical| && Tallied(items, vector, lexical[..i], k)
    ensures Tallied(Add(items, i, lexical[i], false, k), vector, lexical[..i + 1], k)
  {
    var a, hit := lexical[..i], lexical[i];
    assert lexical[..i + 1] == a + [hit];
    EntriesAreFused(items, vector, a, k);
    AddIsGrown(items, i, hit, false, k);
    IdsGrow(a, hit);
    AbsentIsNone(vector, a, k, hit.chunk.chunkId);
    forall id ensures Fused(vector, a + [hit], k, id)
      == if hit.chunk.chunkId == id then Some(Grown(Fused(vector, a, k, id), hit, i, false, k)) else Fused(vector, a, k, id)
    {
      OneMoreLexical(vector, a, hit, k, id);
    }
  }

  lemma IdsGrow(a: seq<Hit>, hit: Hit)
    ensures IdsIn(a + [hit]) == IdsIn(a) + {hit.chunk.chunkId}
  {
    IdsOfBoth(a, [hit]);
    assert [hit][0] == hit;
    assert IdsIn([hit]) == {hit.chunk.chunkId};
  }

  lemma AbsentIsNone(vector: seq<Hit>, lexical: seq<Hit>, k: real, id: string)
    requires k >= 0.0
    ensures Fused(vector, lexical, k, id).None? <==> id !in IdsIn(vector) + IdsIn(lexical)
  {
    ChunkForIsFirst(vector + lexical, id);
    IdsOfBoth(vector, lexical);
  }

  lemma IdsOfBoth(a: seq<Hit>, b: seq<Hit>)
    ensures IdsIn(a + b) == IdsIn(a) + IdsIn(b)
  {
    forall id | id in IdsIn(b) ensures id in IdsIn(a + b) {
      var i :| 0 <= i < |b| && b[i].chunk.chunkId == id;
      assert (a + b)[|a| + i] == b[i];
    }
    forall id | id in IdsIn(a) ensures id in IdsIn(a + b) {
      var i :| 0 <= i < |a| && a[i].chunk.chunkId == id;
      assert (a + b)[i] == a[i];
    }
  }

  lemma {:induction false} AbsentAddsNothing(hits: seq<Hit>, k: real, id: string)
    requires k >= 0.0
    ensures id !in IdsIn(hits) ==> RankSum(hits, k, id) == 0.0 && LastScore(hits, id) == 0.0
  {
    if hits != [] && id !in IdsIn(hits) {
      var front := hits[..|hits| - 1];
      assert forall i :: 0 <= i < |front| ==> front[i] == hits[i];
      AbsentAddsNothing(front, k, id);
    }
  }

  /** The map is read in no particular order; the result does not depend on it. */
  method FuseRRFWithK(vector: seq<Hit>, lexical: seq<Hit>, topK: nat, k: real) returns (r: seq<Hit>)
    requires k >= 0.0
    ensures IsFusion(vector, lexical, topK, k, r)
  {
    if topK == 0 {
      NothingRanked(multiset(AllFused(vector, lexical, k)), 0);
      return [];
    }
    var scores := Tally(vector, lexical, k);
    EntriesAreFused(scores, vector, lexical, k);
    var fusedHits := Values(scores);
    r := SortAndCut(fusedHits, topK);
  }

  method Tally(vector: seq<Hit>, lexical: seq<Hit>, k: real) returns (scores: map<string, Scored>)
    requires k >= 0.0
    ensures Tallied(scores, vector, lexical, k)
  {
    scores := map[];
    for i := 0 to |vector|
      invariant Tallied(scores, vector[..i], [], k)
    {
      AddVector(scores, vector, i, k);
      scores := Add(scores, i, vector[i], true, k);
    }
    assert vector[..|vector|] == vector && lexical[..0] == [];
    for i := 0 to |lexical|
      invariant Tallied(scores, vector, lexical[..i], k)
    {
      AddLexical(scores, vector, lexical, i, k);
      scores := Add(scores, i, lexical[i], false, k);
    }
    assert lexical[..|lexical|] == lexical;
  }

  ghost predicate Keyed(items: map<string, Scored>) {
    forall id :: id in items ==> items[id].chunk.chunkId == id
  }

  lemma EntriesAreFused(items: map<string, Scored>, vector: seq<Hit>, lexical: seq<Hit>, k: real)
    requires k >= 0.0 && Tallied(items, vector, lexical, k)
    ensures Keyed(items)
    ensures ValuesOf(items, items.Keys) == AllFused(vector, lexical, k)
  {
    forall id | id in items ensures items[id].chunk.chunkId == id {
      ChunkForIsFirst(vector + lexical, id);
    }
  }

  ghost function ValuesOf(items: map<string, Scored>, ids: set<string>): set<Scored>
    requires ids <= items.Keys
  {
    set id | id in ids :: items[id]
  }

  lemma OneMoreValue(items: map<string, Scored>, done: set<string>, id: string)
    requires Keyed(items) && done <= items.Keys && id in items && id !in done
    ensures multiset(ValuesOf(items, done + {id})) == multiset(ValuesOf(items, done)) + multiset{items[id]}
  {
    assert ValuesOf(items, done + {id}) == ValuesOf(items, done) + {items[id]};
    assert items[id] !in ValuesOf(items, done);
  }

  method Values(items: map<string, Scored>) returns (list: seq<Scored>)
    requires Keyed(items)
    ensures multiset(list) == multiset(ValuesOf(items, items.Keys))
  {
    var keys, done := items.Keys, {};
    list := [];
    while keys != {}
      invariant keys !! done && keys + done == items.Keys
      invariant multiset(list) == multiset(ValuesOf(items, done))
      decreases keys
    {
      var id :| id in keys;
      OneMoreValue(items, done, id);
      keys, done := keys - {id}, done + {id};
      list := list + [items[id]];
    }
  }

  // ---------------------------------------------------------------- what a fusion is

  ghost predicate DistinctHits(hits: seq<Hit>) {
    forall i, j :: 0 <= i < j < |hits| ==> hits[i].chunk.chunkId != hits[j].chunk.chunkId
  }

  /** Every entry occurs once, under an identifier of its own. */
  ghost predicate OneEach(all: multiset<Scored>) {
    DistinctIds(all) && forall s :: all[s] <= 1
  }

  /** Every hit of a ranking is one of the chunks ranked; none occurs twice; none is left out while there is room. */
  lemma RankingMeans(r: seq<Hit>, all: multiset<Scored>, n: nat)
    requires Ranks(r, all, n) && OneEach(all)
    ensures DistinctHits(r) && |r| == if n < |all| then n else |all|
    ensures forall h :: h in r ==> exists s :: s in all && h == Strip(s)
  {
    var top :| IsTop(top, all, RankLe, n) && r == Strips(top);
    forall i, j | 0 <= i < j < |r| ensures r[i].chunk.chunkId != r[j].chunk.chunkId {
      TopDistinct(top, all, i, j);
    }
    forall h | h in r ensures exists s :: s in all && h == Strip(s) {
      var s := StrippedFrom(top, r, h);
    }
  }

  lemma StrippedFrom(top: seq<Scored>, r: seq<Hit>, h: Hit) returns (s: Scored)
    requires r == Strips(top) && h in r
    ensures s in multiset(top) && h == Strip(s)
  {
    var i :| 0 <= i < |r| && r[i] == h;
    s := top[i];
  }

  lemma TopDistinct(top: seq<Scored>, all: multiset<Scored>, i: nat, j: nat)
    requires multiset(top) <= all && OneEach(all) && i < j < |top|
    ensures top[i].chunk.chunkId != top[j].chunk.chunkId
  {
    assert top[i] in multiset(top) && top[j] in multiset(top);
    if top[i].chunk.chunkId == top[j].chunk.chunkId {
      TwiceIsTwo(top, i, j);
    }
  }

  lemma TwiceIsTwo<T>(s: seq<T>, i: nat, j: nat)
    requires i < j < |s| && s[i] == s[j]
    ensures multiset(s)[s[i]] >= 2
  {
    assert s == s[..j] + [s[j]] + s[j + 1..];
    assert s[i] in multiset(s[..j]) by { assert s[..j][i] == s[i]; }
  }

  lemma AllFusedOneEach(vector: seq<Hit>, lexical: seq<Hit>, k: real)
    requires k >= 0.0
    ensures OneEach(multiset(AllFused(vector, lexical, k)))
  {
    forall a, b | a in AllFused(vector, lexical, k) && b in AllFused(vector, lexical, k) && a.chunk.chunkId == b.chunk.chunkId
      ensures a == b
    {
      FusedHasItsId(vector, lexical, k, a);
      FusedHasItsId(vector, lexical, k, b);
    }
  }

  lemma FusedHasItsId(vector: seq<Hit>, lexical: seq<Hit>, k: real, s: Scored)
    requires k >= 0.0 && s in AllFused(vector, lexical, k)
    ensures s.chunk.chunkId in IdsIn(vector) + IdsIn(lexical) && Fused(vector, lexical, k, s.chunk.chunkId) == Some(s)
  {
    var id :| id in IdsIn(vector) + IdsIn(lexical) && Fused(vector, lexical, k, id) == Some(s);
    ChunkForIsFirst(vector + lexical, id);
  }

  /** A fusion has each chunk once, and every one of them is in a list it fuses. */
  lemma FusionComesFrom(vector: seq<Hit>, lexical: seq<Hit>, topK: nat, k: real, r: seq<Hit>)
    requires k >= 0.0 && IsFusion(vector, lexical, topK, k, r)
    ensures DistinctHits(r)
    ensures forall h :: h in r ==> exists g :: g in vector + lexical && g.chunk == h.chunk
  {
    AllFusedOneEach(vector, lexical, k);
    RankingMeans(r, multiset(AllFused(vector, lexical, k)), topK);
    forall h | h in r ensures exists g :: g in vector + lexical && g.chunk == h.chunk {
      var s :| s in multiset(AllFused(vector, lexical, k)) && h == Strip(s);
      FusedHasItsId(vector, lexical, k, s);
      ChunkForIsFirst(vector + lexical, s.chunk.chunkId);
    }
  }

  /** There is one entry for each identifier. */
  lemma AllFusedCount(vector: seq<Hit>, lexical: seq<Hit>, k: real)
    requires k >= 0.0
    ensures |AllFused(vector, lexical, k)| == |IdsIn(vector) + IdsIn(lexical)|
  {
    var ids := IdsIn(vector) + IdsIn(lexical);
    var items: map<string, Scored> := map id | id in ids && Fused(vector, lexical, k, id).Some? :: Fused(vector, lexical, k, id).value;
    forall id | id in ids ensures Fused(vector, lexical, k, id).Some? {
      AbsentIsNone(vector, lexical, k, id);
    }
    assert Tallied(items, vector, lexical, k);
    EntriesAreFused(items, vector, lexical, k);
    ValuesCount(items, items.Keys);
  }

  lemma {:induction false} ValuesCount(items: map<string, Scored>, ids: set<string>)
    requires Keyed(items) && ids <= items.Keys
    ensures |ValuesOf(items, ids)| == |ids|
    decreases |ids|
  {
    if ids != {} {
      var id :| id in ids;
      var rest := ids - {id};
      ValuesCount(items, rest);
      assert ValuesOf(items, rest + {id}) == ValuesOf(items, rest) + {items[id]};
      assert items[id] !in ValuesOf(items, rest);
      assert ids == rest + {id};
    }
  }

  // ---------------------------------------------------------------- the rank of an identifier

  function FusedScore(vector: seq<Hit>, lexical: seq<Hit>, k: real, id: string): real
    requires k >= 0.0
  {
    RankSum(vector, k, id) + RankSum(lexical, k, id)
  }

  /** Higher fused score first, then higher vector score, then the smaller identifier. */
  predicate Before(vector: seq<Hit>, lexical: seq<Hit>, k: real, a: string, b: string)
    requires k >= 0.0
  {
    var x, y := FusedScore(vector, lexical, k, a), FusedScore(vector, lexical, k, b);
    x > y || (x == y && (LastScore(vector, a) > LastScore(vector, b) || (LastScore(vector, a) == LastScore(vector, b) && TextLe(a, b) && a != b)))
  }

  /** In a list that has each identifier once, its place alone gives what it adds; who is absent gets nothing. */
  lemma {:induction false} RankSumIsPlace(hits: seq<Hit>, k: real, i: nat)
    requires k >= 0.0 && DistinctHits(hits) && i < |hits|
    ensures RankSum(hits, k, hits[i].chunk.chunkId) == 1.0 / (k + (i + 1) as real)
  {
    var front, id := hits[..|hits| - 1], hits[i].chunk.chunkId;
    if i < |front| {
      RankSumIsPlace(front, k, i);
    } else {
      AbsentAddsNothing(front, k, id);
    }
  }

  lemma {:induction false} LastScoreIsOwn(hits: seq<Hit>, i: nat)
    requires DistinctHits(hits) && i < |hits|
    ensures LastScore(hits, hits[i].chunk.chunkId) == hits[i].score
  {
    if i < |hits| - 1 { LastScoreIsOwn(hits[..|hits| - 1], i); }
  }

  /** `a` is in the list, and `b` is not before it. */
  ghost predicate Leads(hits: seq<Hit>, a: string, b: string) {
    exists i :: 0 <= i < |hits| && hits[i].chunk.chunkId == a && b !in IdsIn(hits[..i + 1])
  }

  lemma LeaderGetsMore(hits: seq<Hit>, k: real, a: string, b: string)
    requires k >= 0.0 && DistinctHits(hits) && Leads(hits, a, b)
    ensures RankSum(hits, k, a) > RankSum(hits, k, b)
  {
    var i :| 0 <= i < |hits| && hits[i].chunk.chunkId == a && b !in IdsIn(hits[..i + 1]);
    if b in IdsIn(hits) {
      var j := LaterPlace(hits, i, b);
      EarlierGetsMore(hits, k, i, j);
    } else {
      AbsentAddsNothing(hits, k, b);
      PlacedGetsSome(hits, k, i);
    }
  }

  lemma EarlierGetsMore(hits: seq<Hit>, k: real, i: nat, j: nat)
    requires k >= 0.0 && DistinctHits(hits) && i < j < |hits|
    ensures RankSum(hits, k, hits[i].chunk.chunkId) > RankSum(hits, k, hits[j].chunk.chunkId)
  {
    RankSumIsPlace(hits, k, i);
    RankSumIsPlace(hits, k, j);
    EarlierIsMore(k, i, j);
  }

  lemma PlacedGetsSome(hits: seq<Hit>, k: real, i: nat)
    requires k >= 0.0 && DistinctHits(hits) && i < |hits|
    ensures RankSum(hits, k, hits[i].chunk.chunkId) > 0.0
  {
    RankSumIsPlace(hits, k, i);
  }

  lemma LaterPlace(hits: seq<Hit>, i: nat, b: string) returns (j: nat)
    requires i < |hits| && b in IdsIn(hits) && b !in IdsIn(hits[..i + 1])
    ensures i < j < |hits| && hits[j].chunk.chunkId == b
  {
    j :| j < |hits| && hits[j].chunk.chunkId == b;
    assert forall m :: 0 <= m < i + 1 ==> hits[..i + 1][m] == hits[m];
  }

  lemma EarlierIsMore(k: real, i: nat, j: nat)
    requires k >= 0.0 && i < j
    ensures 1.0 / (k + (i + 1) as real) > 1.0 / (k + (j + 1) as real)
  {
    var x, y := k + (i + 1) as real, k + (j + 1) as real;
    Reciprocals(x, y);
  }

  lemma Reciprocals(x: real, y: real)
    requires 0.0 < x < y
    ensures 1.0 / x > 1.0 / y
  {
    assert 1.0 / x - 1.0 / y == (y - x) / (x * y);
    assert x * y > 0.0;
  }

  /** A chunk that both searches place before another, or one does while the other has neither, comes out before it. */
  lemma LeaderComesFirst(vector: seq<Hit>, lexical: seq<Hit>, k: real, a: string, b: string)
    requires k >= 0.0 && DistinctHits(vector) && DistinctHits(lexical)
    requires Leads(vector, a, b) || Leads(lexical, a, b)
    requires Leads(vector, a, b) || (a !in IdsIn(vector) && b !in IdsIn(vector))
    requires Leads(lexical, a, b) || (a !in IdsIn(lexical) && b !in IdsIn(lexical))
    ensures Before(vector, lexical, k, a, b)
  {
    if Leads(vector, a, b) { LeaderGetsMore(vector, k, a, b); }
    else { AbsentAddsNothing(vector, k, a); AbsentAddsNothing(vector, k, b); }
    if Leads(lexical, a, b) { LeaderGetsMore(lexical, k, a, b); }
    else { AbsentAddsNothing(lexical, k, a); AbsentAddsNothing(lexical, k, b); }
  }

  /** The fusion in terms of the two lists alone: which identifiers, in which order, with which scores. */
  lemma FusionMeans(vector: seq<Hit>, lexical: seq<Hit>, topK: nat, k: real, r: seq<Hit>)
    requires k >= 0.0 && IsFusion(vector, lexical, topK, k, r)
    ensures var ids := IdsIn(vector) + IdsIn(lexical); |r| == if topK < |ids| then topK else |ids|
    ensures forall h :: h in r ==> Some(h.chunk) == ChunkFor(vector + lexical, h.chunk.chunkId)
                                   && h.score == FusedScore(vector, lexical, k, h.chunk.chunkId)
    ensures forall i, j :: 0 <= i < j < |r| ==> Before(vector, lexical, k, r[i].chunk.chunkId, r[j].chunk.chunkId)
    ensures forall h, id :: h in r && id in (IdsIn(vector) + IdsIn(lexical)) - IdsIn(r) ==> Before(vector, lexical, k, h.chunk.chunkId, id)
  {
    var all := multiset(AllFused(vector, lexical, k));
    AllFusedOneEach(vector, lexical, k);
    AllFusedCount(vector, lexical, k);
    RankingMeans(r, all, topK);
    forall h | h in r
      ensures Some(h.chunk) == ChunkFor(vector + lexical, h.chunk.chunkId) && h.score == FusedScore(vector, lexical, k, h.chunk.chunkId)
    {
      var s :| s in all && h == Strip(s);
      FusedHasItsId(vector, lexical, k, s);
    }
    FusionOrder(vector, lexical, topK, k, r);
  }

  lemma FusionOrder(vector: seq<Hit>, lexical: seq<Hit>, topK: nat, k: real, r: seq<Hit>)
    requires k >= 0.0 && IsFusion(vector, lexical, topK, k, r) && DistinctHits(r)
    ensures forall i, j :: 0 <= i < j < |r| ==> Before(vector, lexical, k, r[i].chunk.chunkId, r[j].chunk.chunkId)
    ensures forall h, id :: h in r && id in (IdsIn(vector) + IdsIn(lexical)) - IdsIn(r) ==> Before(vector, lexical, k, h.chunk.chunkId, id)
  {
    var all := multiset(AllFused(vector, lexical, k));
    var top :| IsTop(top, all, RankLe, topK) && r == Strips(top);
    forall i, j | 0 <= i < j < |r| ensures Before(vector, lexical, k, r[i].chunk.chunkId, r[j].chunk.chunkId) {
      assert top[i] in multiset(top) && top[j] in multiset(top);
      LeIsBefore(vector, lexical, k, top[i], top[j]);
    }
    forall h, id | h in r && id in (IdsIn(vector) + IdsIn(lexical)) - IdsIn(r)
      ensures Before(vector, lexical, k, h.chunk.chunkId, id)
    {
      var i :| 0 <= i < |r| && r[i] == h;
      var s := LeftOutEntry(vector, lexical, k, top, r, id);
      assert RankLe(top[i], s);
      assert top[i] in multiset(top);
      LeIsBefore(vector, lexical, k, top[i], s);
    }
  }

  lemma LeftOutEntry(vector: seq<Hit>, lexical: seq<Hit>, k: real, top: seq<Scored>, r: seq<Hit>, id: string) returns (s: Scored)
    requires k >= 0.0 && r == Strips(top) && id in (IdsIn(vector) + IdsIn(lexical)) - IdsIn(r)
    ensures s.chunk.chunkId == id && s in AllFused(vector, lexical, k)
    ensures s in multiset(AllFused(vector, lexical, k)) - multiset(top)
  {
    AbsentIsNone(vector, lexical, k, id);
    s := Fused(vector, lexical, k, id).value;
    ChunkForIsFirst(vector + lexical, id);
    LeftOut(top, r, s);
  }

  lemma LeftOut(top: seq<Scored>, r: seq<Hit>, s: Scored)
    requires r == Strips(top) && s.chunk.chunkId !in IdsIn(r)
    ensures s !in multiset(top)
  {
    forall i | 0 <= i < |top| ensures top[i].chunk.chunkId in IdsIn(r) {
      assert r[i].chunk.chunkId == top[i].chunk.chunkId;
    }
  }

  lemma LeIsBefore(vector: seq<Hit>, lexical: seq<Hit>, k: real, a: Scored, b: Scored)
    requires k >= 0.0 && a in AllFused(vector, lexical, k) && b in AllFused(vector, lexical, k)
    requires RankLe(a, b) && a.chunk.chunkId != b.chunk.chunkId
    ensures Before(vector, lexical, k, a.chunk.chunkId, b.chunk.chunkId)
  {
    FusedHasItsId(vector, lexical, k, a);
    FusedHasItsId(vector, lexical, k, b);
  }

  // ---------------------------------------------------------------- the rule-based rerank

  function Rescored(x: Lexicon, tokens: seq<string>, hits: seq<Hit>): (r: seq<Scored>)
    ensures |r| == |hits|
  {
    seq(|hits|, i requires 0 <= i < |hits| =>
      Scored(hits[i].chunk, hits[i].score + LexicalScore(x, tokens, hits[i].chunk) as real, 0.0))
  }

  ghost predicate IsRerank(x: Lexicon, query: string, candidates: seq<Hit>, shortlistSize: int, topK: nat, r: seq<Hit>) {
    Ranks(r, multiset(Rescored(x, x.tokens(query), FirstN(candidates, shortlistSize))), topK)
  }

  method RerankShortlistWithLimit(x: Lexicon, query: string, all: seq<Hit>, shortlistSize: int, topK: nat) returns (r: seq<Hit>)
    ensures IsRerank(x, query, all, shortlistSize, topK, r)
  {
    var tokens := x.tokens(query);
    var candidates := FirstN(all, shortlistSize);
    if topK == 0 || |all| == 0 || shortlistSize <= 0 {
      assert topK > 0 ==> candidates == [];
      NothingRanked(multiset(Rescored(x, tokens, candidates)), topK);
      return [];
    }
    var scored := [];
    for i := 0 to |candidates|
      invariant scored == Rescored(x, tokens, candidates[..i])
    {
      var score := candidates[i].score;
      if |tokens| > 0 {
        var more := LexicalScoreOf(x, tokens, candidates[i].chunk);
        score := score + more as real;
      }
      scored := scored + [Scored(candidates[i].chunk, score, 0.0)];
    }
    assert candidates[..|candidates|] == candidates;
    r := SortAndCut(scored, topK);
  }

  /** A chunk of the shortlist with its new score: the fused one and one for each token that occurs. */
  ghost predicate IsRescored(x: Lexicon, tokens: seq<string>, shortlist: seq<Hit>, h: Hit) {
    exists c :: c in shortlist && h == Hit(c.chunk, c.score + |Occurring(x, tokens, c.chunk)| as real)
  }

  /** Higher score first, then the smaller identifier. */
  predicate Outranks(a: Hit, b: Hit) {
    a.score > b.score || (a.score == b.score && TextLe(a.chunk.chunkId, b.chunk.chunkId))
  }

  /**
   * A rerank of distinct chunks holds chunks of the shortlist alone, each once and with its score raised by the number of
   * tokens that occur in it, in the order of these scores; and no chunk of the shortlist that is left out ranks before one that is in.
   */
  lemma RerankMeans(x: Lexicon, query: string, candidates: seq<Hit>, shortlistSize: int, topK: nat, r: seq<Hit>)
    requires IsRerank(x, query, candidates, shortlistSize, topK, r) && DistinctHits(candidates)
    ensures var shortlist := FirstN(candidates, shortlistSize);
            && DistinctHits(r) && |r| == (if topK < |shortlist| then topK else |shortlist|)
            && (forall h :: h in r ==> IsRescored(x, x.tokens(query), shortlist, h))
            && (forall i, j :: 0 <= i < j < |r| ==> Outranks(r[i], r[j]))
            && forall g, h :: h in r && IsRescored(x, x.tokens(query), shortlist, g) && g !in r ==> Outranks(h, g)
  {
    var tokens, shortlist := x.tokens(query), FirstN(candidates, shortlistSize);
    RescoredOneEach(x, tokens, shortlist);
    RankingMeans(r, multiset(Rescored(x, tokens, shortlist)), topK);
    RerankOrder(x, tokens, shortlist, topK, r);
  }

  lemma RerankOrder(x: Lexicon, tokens: seq<string>, shortlist: seq<Hit>, topK: nat, r: seq<Hit>)
    requires Ranks(r, multiset(Rescored(x, tokens, shortlist)), topK)
    ensures forall h :: h in r ==> IsRescored(x, tokens, shortlist, h)
    ensures forall i, j :: 0 <= i < j < |r| ==> Outranks(r[i], r[j])
    ensures forall g, h :: h in r && IsRescored(x, tokens, shortlist, g) && g !in r ==> Outranks(h, g)
  {
    var all := multiset(Rescored(x, tokens, shortlist));
    var top :| IsTop(top, all, RankLe, topK) && r == Strips(top);
    forall h | h in r ensures IsRescored(x, tokens, shortlist, h) {
      var s := StrippedFrom(top, r, h);
      RescoredIs(x, tokens, shortlist, s);
    }
    forall i, j | 0 <= i < j < |r| ensures Outranks(r[i], r[j]) {
      SameTie(x, tokens, shortlist, top, i);
      SameTie(x, tokens, shortlist, top, j);
      assert RankLe(top[i], top[j]);
    }
    forall g, h | h in r && IsRescored(x, tokens, shortlist, g) && g !in r ensures Outranks(h, g) {
      var i :| 0 <= i < |r| && r[i] == h;
      SameTie(x, tokens, shortlist, top, i);
      var left := RescoredLeftOut(x, tokens, shortlist, top, r, g);
      assert RankLe(top[i], left);
    }
  }

  lemma SameTie(x: Lexicon, tokens: seq<string>, shortlist: seq<Hit>, top: seq<Scored>, i: nat)
    requires multiset(top) <= multiset(Rescored(x, tokens, shortlist)) && i < |top|
    ensures top[i].tie == 0.0
  {
    assert top[i] in multiset(top);
    RescoredIs(x, tokens, shortlist, top[i]);
  }

  lemma RescoredIs(x: Lexicon, tokens: seq<string>, shortlist: seq<Hit>, s: Scored)
    requires s in multiset(Rescored(x, tokens, shortlist))
    ensures s.tie == 0.0 && IsRescored(x, tokens, shortlist, Strip(s))
  {
    var i :| 0 <= i < |shortlist| && Rescored(x, tokens, shortlist)[i] == s;
    ScoreCountsTokens(x, tokens, shortlist[i].chunk);
    assert shortlist[i] in shortlist;
  }

  lemma RescoredLeftOut(x: Lexicon, tokens: seq<string>, shortlist: seq<Hit>, top: seq<Scored>, r: seq<Hit>, g: Hit) returns (s: Scored)
    requires IsRescored(x, tokens, shortlist, g) && r == Strips(top) && g !in r
    ensures s in multiset(Rescored(x, tokens, shortlist)) - multiset(top) && s == Scored(g.chunk, g.score, 0.0)
  {
    var c :| c in shortlist && g == Hit(c.chunk, c.score + |Occurring(x, tokens, c.chunk)| as real);
    var i :| 0 <= i < |shortlist| && shortlist[i] == c;
    ScoreCountsTokens(x, tokens, c.chunk);
    s := Rescored(x, tokens, shortlist)[i];
    assert forall j :: 0 <= j < |top| ==> r[j] in r && r[j] == Strip(top[j]);
    assert s !in multiset(top);
    assert s in multiset(Rescored(x, tokens, shortlist));
  }

  lemma RescoredOneEach(x: Lexicon, tokens: seq<string>, shortlist: seq<Hit>)
    requires DistinctHits(shortlist)
    ensures OneEach(multiset(Rescored(x, tokens, shortlist)))
    ensures |multiset(Rescored(x, tokens, shortlist))| == |shortlist|
    ensures forall s :: s in multiset(Rescored(x, tokens, shortlist)) ==> exists h :: h in shortlist && h.chunk == s.chunk
  {
    var scored := Rescored(x, tokens, shortlist);
    assert forall i :: 0 <= i < |scored| ==> scored[i].chunk == shortlist[i].chunk && shortlist[i] in shortlist;
    assert forall i, j :: 0 <= i < j < |scored| ==> scored[i].chunk.chunkId != scored[j].chunk.chunkId;
    DistinctOnce(scored);
  }

  lemma {:induction false} DistinctOnce(scored: seq<Scored>)
    requires forall i, j :: 0 <= i < j < |scored| ==> scored[i].chunk.chunkId != scored[j].chunk.chunkId
    ensures OneEach(multiset(scored)) && |multiset(scored)| == |scored|
  {
    if scored != [] {
      var front, last := scored[..|scored| - 1], scored[|scored| - 1];
      DistinctOnce(front);
      assert scored == front + [last];
      assert forall i :: 0 <= i < |front| ==> front[i] == scored[i];
      forall a, b | a in multiset(scored) && b in multiset(scored) && a.chunk.chunkId == b.chunk.chunkId ensures a == b {
        var i :| 0 <= i < |scored| && scored[i] == a;
        var j :| 0 <= j < |scored| && scored[j] == b;
      }
    }
  }
}
