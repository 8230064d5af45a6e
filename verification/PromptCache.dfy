/**
 * The in-memory prompt cache: a map of entries and a recency list that share the entry objects, with
 * a capacity and a time to live. The class is proved against operations on one abstract sequence, most
 * recently used first; what those operations guarantee is proved over all sequences of calls.
 */
module PromptCache {
  import opened Sequences
  import opened Chat

  type Messages = seq<Message>

  /** `ttl` not positive means entries never expire. */
  datatype Config = Config(maxEntries: int, ttl: int)

  function Normalized(cfg: Config): (n: Config)
    ensures n.maxEntries > 0 && n.ttl == cfg.ttl
    ensures cfg.maxEntries > 0 ==> n == cfg
  {
    if cfg.maxEntries <= 0 then cfg.(maxEntries := 1024) else cfg
  }

  datatype Entry = Entry(key: string, messages: Messages, expiresAt: Option<int>)

  function ExpiryAt(cfg: Config, now: int): Option<int> {
    if cfg.ttl <= 0 then None else Some(now + cfg.ttl)
  }

  predicate Expired(expiresAt: Option<int>, now: int) {
    expiresAt.Some? && expiresAt.value <= now
  }

  // ---------------------------------------------------------------- operations on the abstract cache

  function Keys(es: seq<Entry>): (ks: seq<string>)
    ensures |ks| == |es| && forall i :: 0 <= i < |es| ==> ks[i] == es[i].key
  {
    seq(|es|, i requires 0 <= i < |es| => es[i].key)
  }

  /** The entry of a key, if any. */
  function Lookup(es: seq<Entry>, k: string): Option<Entry> {
    if es == [] then None else if es[0].key == k then Some(es[0]) else Lookup(es[1..], k)
  }

  function Without(es: seq<Entry>, k: string): (r: seq<Entry>)
    ensures |r| <= |es|
  {
    if es == [] then [] else if es[0].key == k then Without(es[1..], k) else [es[0]] + Without(es[1..], k)
  }

  function Live(es: seq<Entry>, now: int): (r: seq<Entry>)
    ensures |r| <= |es|
  {
    if es == [] then []
    else if Expired(es[0].expiresAt, now) then Live(es[1..], now) else [es[0]] + Live(es[1..], now)
  }

  /** What a Get answers. */
  function Found(es: seq<Entry>, k: string, now: int): Option<Messages> {
    match Lookup(es, k)
    case None => None
    case Some(e) => if Expired(e.expiresAt, now) then None else Some(e.messages)
  }

  function AfterGet(es: seq<Entry>, k: string, now: int): seq<Entry> {
    match Lookup(es, k)
    case None => es
    case Some(e) => if Expired(e.expiresAt, now) then Without(es, k) else [e] + Without(es, k)
  }

  function AfterSet(cfg: Config, es: seq<Entry>, k: string, messages: Messages, now: int): seq<Entry>
    requires cfg.maxEntries > 0
  {
    FirstN([Entry(k, messages, ExpiryAt(cfg, now))] + Without(es, k), cfg.maxEntries)
  }

  function AfterDelete(es: seq<Entry>, ks: seq<string>): seq<Entry>
    decreases |ks|
  {
    if ks == [] then es else AfterDelete(Without(es, ks[0]), ks[1..])
  }

  // ---------------------------------------------------------------- the object

  /** A list element and the entry it carries. */
  class Element {
    const key: string
    var messages: Messages
    var expiresAt: Option<int>

    constructor (key: string, messages: Messages, expiresAt: Option<int>)
      ensures this.key == key && this.messages == messages && this.expiresAt == expiresAt
    {
      this.key := key;
      this.messages := messages;
      this.expiresAt := expiresAt;
    }

    function Value(): Entry
      reads this
    {
      Entry(key, messages, expiresAt)
    }
  }

  /** The list without an element. */
  function Unlinked(s: seq<Element>, e: Element): (r: seq<Element>)
    ensures |r| <= |s|
  {
    if s == [] then [] else if s[0] == e then Unlinked(s[1..], e) else [s[0]] + Unlinked(s[1..], e)
  }

  lemma {:induction false} NotThere(s: seq<Element>, e: Element)
    requires e !in s
    ensures Unlinked(s, e) == s
  {
    if s != [] { NotThere(s[1..], e); }
  }

  /** Unlinking takes one element out of its place. */
  lemma {:induction false} UnlinkedAt(s: seq<Element>, i: nat)
    requires i < |s| && forall j :: 0 <= j < |s| && j != i ==> s[j] != s[i]
    ensures Unlinked(s, s[i]) == s[..i] + s[i + 1..]
  {
    var rest := s[1..];
    if i == 0 {
      NotThere(rest, s[0]);
    } else {
      UnlinkedAt(rest, i - 1);
      calc {
        Unlinked(s, s[i]);
        [s[0]] + (rest[..i - 1] + rest[i..]);
        ([s[0]] + rest[..i - 1]) + rest[i..];
        { assert [s[0]] + rest[..i - 1] == s[..i]; }
        s[..i] + s[i + 1..];
      }
    }
  }

  ghost predicate DistinctEntries(es: seq<Entry>) {
    forall i, j :: 0 <= i < j < |es| ==> es[i].key != es[j].key
  }

  lemma {:induction false} AbsentEntry(es: seq<Entry>, k: string)
    requires forall i :: 0 <= i < |es| ==> es[i].key != k
    ensures Lookup(es, k) == None && Without(es, k) == es
  {
    if es != [] { AbsentEntry(es[1..], k); }
  }

  lemma {:induction false} PresentEntry(es: seq<Entry>, i: nat)
    requires DistinctEntries(es) && i < |es|
    ensures Lookup(es, es[i].key) == Some(es[i])
    ensures Without(es, es[i].key) == es[..i] + es[i + 1..]
  {
    var rest := es[1..];
    if i == 0 {
      AbsentEntry(rest, es[0].key);
    } else {
      PresentEntry(rest, i - 1);
      calc {
        Without(es, es[i].key);
        [es[0]] + (rest[..i - 1] + rest[i..]);
        ([es[0]] + rest[..i - 1]) + rest[i..];
        { assert [es[0]] + rest[..i - 1] == es[..i]; }
        es[..i] + es[i + 1..];
      }
    }
  }

  /** The list without its element at place `i`. */
  function Dropped<T>(s: seq<T>, i: nat): (r: seq<T>)
    requires i < |s|
    ensures |r| == |s| - 1
  {
    s[..i] + s[i + 1..]
  }

  function Beside(i: nat, j: nat): nat {
    if j < i then j else j + 1
  }

  lemma DroppedAt<T>(s: seq<T>, i: nat)
    requires i < |s|
    ensures forall j :: 0 <= j < |s| - 1 ==> Dropped(s, i)[j] == s[Beside(i, j)]
    ensures forall x :: x in s && x != s[i] ==> x in Dropped(s, i)
  {
    forall x | x in s && x != s[i] ensures x in Dropped(s, i) {
      var k :| 0 <= k < |s| && s[k] == x;
      assert x == Dropped(s, i)[if k < i then k else k - 1];
    }
  }

  lemma DistinctDropped(es: seq<Entry>, i: nat)
    requires DistinctEntries(es) && i < |es|
    ensures DistinctEntries(Dropped(es, i))
    ensures forall e :: e in Dropped(es, i) ==> e.key != es[i].key
  {
    DroppedAt(es, i);
    forall j, k | 0 <= j < k < |es| - 1 ensures Dropped(es, i)[j].key != Dropped(es, i)[k].key {
      assert es[Beside(i, j)].key != es[Beside(i, k)].key;
    }
    forall j | 0 <= j < |es| - 1 ensures Dropped(es, i)[j].key != es[i].key {
      assert Beside(i, j) != i;
    }
  }

  function ToFront<T>(s: seq<T>, i: nat): (r: seq<T>)
    requires i < |s|
    ensures |r| == |s|
  {
    [s[i]] + (s[..i] + s[i + 1..])
  }

  /** Where the element now at place `j` was before place `i` went to the front. */
  function Source(i: nat, j: nat): nat {
    if j == 0 then i else if j <= i then j - 1 else j
  }

  lemma ToFrontAt<T>(s: seq<T>, i: nat)
    requires i < |s|
    ensures forall j :: 0 <= j < |s| ==> Source(i, j) < |s| && ToFront(s, i)[j] == s[Source(i, j)]
    ensures forall x :: x in s ==> x in ToFront(s, i)
  {
    forall x | x in s ensures x in ToFront(s, i) {
      var k :| 0 <= k < |s| && s[k] == x;
      assert x == ToFront(s, i)[if k == i then 0 else if k < i then k + 1 else k];
    }
  }

  lemma DistinctToFront(es: seq<Entry>, i: nat)
    requires DistinctEntries(es) && i < |es|
    ensures DistinctEntries(ToFront(es, i))
  {
    ToFrontAt(es, i);
    forall j, k | 0 <= j < k < |es| ensures ToFront(es, i)[j].key != ToFront(es, i)[k].key {
      assert Source(i, j) != Source(i, k);
      assert es[Source(i, j)].key != es[Source(i, k)].key;
    }
  }

  lemma PrefixIsFirstN<T>(s: seq<T>, p: seq<T>, n: nat)
    requires p <= s && |p| == if n < |s| then n else |s|
    ensures p == FirstN(s, n)
  {
  }

  class Cache {
    const cfg: Config
    var items: map<string, Element>
    var lru: seq<Element>

    /** The cache's abstract value. */
    ghost var contents: seq<Entry>

    /** The map and the list hold the same elements, once each, and these say what `contents` says. */
    ghost predicate Linked()
      reads this, lru
    {
      && |contents| == |lru|
      && (forall i :: 0 <= i < |lru| ==> contents[i] == lru[i].Value())
      && DistinctEntries(contents)
      && (forall i :: 0 <= i < |lru| ==> lru[i].key in items && items[lru[i].key] == lru[i])
      && (forall k :: k in items ==> items[k] in lru && items[k].key == k)
    }

    ghost predicate Valid()
      reads this, lru
    {
      Linked() && cfg.maxEntries > 0 && |lru| <= cfg.maxEntries
    }

    constructor (cfg: Config)
      ensures Valid() && contents == [] && this.cfg == Normalized(cfg)
    {
      this.cfg := Normalized(cfg);
      items := map[];
      lru := [];
      contents := [];
    }

    method RemoveElement(e: Element, ghost i: nat)
      requires Linked() && i < |lru| && e == lru[i]
      modifies this
      ensures Linked() && lru == old(Dropped(lru, i)) && contents == old(Dropped(contents, i))
      ensures items == old(items) - {e.key}
    {
      UnlinkedAt(lru, i);
      DroppedAt(lru, i);
      DroppedAt(contents, i);
      ghost var was, values := lru, contents;
      lru := Unlinked(lru, e);
      contents := Dropped(contents, i);
      items := items - {e.key};
      assert lru == Dropped(was, i);
      DistinctDropped(values, i);
      forall j | 0 <= j < |lru|
        ensures contents[j] == lru[j].Value() && lru[j].key in items && items[lru[j].key] == lru[j]
      {
        assert lru[j] == was[Beside(i, j)] && contents[j] == values[Beside(i, j)] && values[i].key == e.key;
      }
      forall k | k in items ensures items[k] in lru && items[k].key == k {
        assert items[k] in was && items[k] != e;
      }
    }

    method MoveToFront(e: Element, ghost i: nat)
      requires Linked() && i < |lru| && e == lru[i]
      modifies this`lru, this`contents
      ensures Linked() && lru == old(ToFront(lru, i)) && contents == old(ToFront(contents, i))
    {
      UnlinkedAt(lru, i);
      ToFrontAt(lru, i);
      ToFrontAt(contents, i);
      DistinctToFront(contents, i);
      ghost var was, values := lru, contents;
      lru := [e] + Unlinked(lru, e);
      contents := ToFront(contents, i);
      assert lru == ToFront(was, i);
      forall j | 0 <= j < |lru|
        ensures contents[j] == lru[j].Value() && lru[j].key in items && items[lru[j].key] == lru[j]
      {
        assert lru[j] == was[Source(i, j)] && contents[j] == values[Source(i, j)];
      }
      assert forall k :: k in items ==> items[k] in was && items[k] in lru;
    }

    /** Where the map's element of a key stands in the list, or that the key is nowhere. */
    lemma Locate(key: string) returns (i: nat)
      requires Linked()
      ensures key in items ==> i < |lru| && items[key] == lru[i]
      ensures key in items ==> Lookup(contents, key) == Some(contents[i])
      ensures key in items ==> Without(contents, key) == contents[..i] + contents[i + 1..]
      ensures key !in items ==> Lookup(contents, key) == None && Without(contents, key) == contents
    {
      i := 0;
      if key in items {
        i :| 0 <= i < |lru| && lru[i] == items[key];
        PresentEntry(contents, i);
      } else {
        AbsentEntry(contents, key);
      }
    }

    method Get(key: string, now: int) returns (found: Option<Messages>)
      requires Valid()
      modifies this
      ensures Valid()
      ensures found == Found(old(contents), key, now)
      ensures contents == AfterGet(old(contents), key, now)
    {
      ghost var i := Locate(key);
      if key !in items {
        return None;
      }
      var elem := items[key];
      if Expired(elem.expiresAt, now) {
        RemoveElement(elem, i);
        return None;
      }
      MoveToFront(elem, i);
      return Some(elem.messages);
    }

    method Set(key: string, messages: Messages, now: int)
      requires Valid()
      modifies this, lru
      ensures Valid()
      ensures forall e :: e in lru ==> e in old(lru) || fresh(e)
      ensures contents == AfterSet(cfg, old(contents), key, messages, now)
    {
      ghost var i := Locate(key);
      if key in items {
        Overwrite(items[key], i, messages, now);
        return;
      }
      PushFront(key, messages, now);
      Evict();
    }

    method Overwrite(elem: Element, ghost i: nat, messages: Messages, now: int)
      requires Valid() && i < |lru| && elem == lru[i]
      modifies this`lru, this`contents, elem
      ensures Valid() && forall e :: e in lru ==> e in old(lru)
      ensures contents == old([Entry(elem.key, messages, ExpiryAt(cfg, now))] + (contents[..i] + contents[i + 1..]))
    {
      elem.messages := messages;
      elem.expiresAt := ExpiryAt(cfg, now);
      contents := contents[i := elem.Value()];
      MoveToFront(elem, i);
    }

    /** The new element may exceed the capacity by one. */
    method PushFront(key: string, messages: Messages, now: int)
      requires Valid() && key !in items
      modifies this
      ensures Linked() && |lru| == |old(lru)| + 1
      ensures forall e :: e in lru ==> e in old(lru) || fresh(e)
      ensures contents == [Entry(key, messages, ExpiryAt(cfg, now))] + old(contents)
    {
      var elem := new Element(key, messages, ExpiryAt(cfg, now));
      lru := [elem] + lru;
      items := items[key := elem];
      contents := [elem.Value()] + contents;
    }

    /** The map and the list have the same size, so the eviction loop may count either. */
    lemma SameSize()
      requires Linked()
      ensures |items| == |lru|
    {
      KeyCount(contents);
      var keys := KeySet(contents);
      assert items.Keys == keys by {
        forall k | k in items ensures k in keys {
          var i :| 0 <= i < |lru| && lru[i] == items[k];
          assert contents[i].key == k;
        }
      }
    }

    method RemoveBack()
      requires Linked() && lru != []
      modifies this
      ensures Linked() && |items| == |lru| == |old(lru)| - 1
      ensures lru <= old(lru) && contents <= old(contents)
    {
      RemoveElement(lru[|lru| - 1], |lru| - 1);
      SameSize();
    }

    method Evict()
      requires Linked() && cfg.maxEntries > 0
      modifies this
      ensures Valid() && lru <= old(lru)
      ensures contents == FirstN(old(contents), cfg.maxEntries)
    {
      SameSize();
      while |items| > cfg.maxEntries
        invariant Linked() && |items| == |lru| == |contents|
        invariant lru <= old(lru) && contents <= old(contents)
        invariant |contents| >= cfg.maxEntries || |contents| == |old(contents)|
      {
        RemoveBack();
      }
      PrefixIsFirstN(old(contents), contents, cfg.maxEntries);
    }

    method Delete(ctxLive: bool, keys: seq<string>) returns (ok: bool)
      requires Valid()
      modifies this
      ensures Valid() && ok == ctxLive
      ensures contents == if ok then AfterDelete(old(contents), keys) else old(contents)
    {
      if !ctxLive {
        return false;
      }
      for n := 0 to |keys|
        invariant Valid()
        invariant AfterDelete(old(contents), keys) == AfterDelete(contents, keys[n..])
      {
        assert keys[n..][1..] == keys[n + 1..];
        ghost var i := Locate(keys[n]);
        if keys[n] in items {
          RemoveElement(items[keys[n]], i);
        }
      }
      return true;
    }

    method Clear(ctxLive: bool) returns (ok: bool)
      requires Valid()
      modifies this
      ensures Valid() && ok == ctxLive
      ensures contents == if ok then [] else old(contents)
    {
      if !ctxLive {
        return false;
      }
      items := map[];
      lru := [];
      contents := [];
      return true;
    }

    method Stats(ctxLive: bool, now: int) returns (entries: Option<nat>)
      requires Valid()
      modifies this
      ensures Valid() && entries.Some? == ctxLive
      ensures contents == if ctxLive then Live(old(contents), now) else old(contents)
      ensures ctxLive ==> entries.value == |contents|
    {
      if !ctxLive {
        return None;
      }
      RemoveExpired(now);
      SameSize();
      return Some(|items|);
    }

    method RemoveIfExpired(i: nat, now: int)
      requires Valid() && i < |lru|
      modifies this
      ensures Valid() && |lru| >= i
      ensures contents == old(if Expired(contents[i].expiresAt, now) then contents[..i] + contents[i + 1..] else contents)
    {
      var elem := lru[i];
      if Expired(elem.expiresAt, now) {
        RemoveElement(elem, i);
      }
    }

    method RemoveExpired(now: int)
      requires Valid()
      modifies this
      ensures Valid() && contents == Live(old(contents), now)
    {
      ghost var start := contents;
      var i := |lru|;
      while i > 0
        invariant 0 <= i <= |start| && i <= |lru| && Valid()
        invariant contents == start[..i] + Live(start[i..], now)
      {
        i := i - 1;
        LiveStep(start, i, contents, now);
        RemoveIfExpired(i, now);
      }
      assert start[0..] == start;
    }
  }

  /** The sweep from the back: everything behind `i + 1` is swept, now comes the entry at `i`. */
  lemma LiveStep(start: seq<Entry>, i: nat, es: seq<Entry>, now: int)
    requires i < |start| && es == start[..i + 1] + Live(start[i + 1..], now)
    ensures es[i] == start[i]
    ensures (if Expired(es[i].expiresAt, now) then es[..i] + es[i + 1..] else es) == start[..i] + Live(start[i..], now)
  {
    assert start[i..][1..] == start[i + 1..];
  }

  function KeySet(es: seq<Entry>): set<string> {
    set i | 0 <= i < |es| :: es[i].key
  }

  lemma {:induction false} KeyCount(es: seq<Entry>)
    requires DistinctEntries(es)
    ensures |KeySet(es)| == |es|
  {
    if es != [] {
      var n := |es| - 1;
      KeyCount(es[..n]);
      OneMoreKey(es[..n], es[n]);
      assert es == es[..n] + [es[n]];
      assert forall i :: 0 <= i < n ==> es[..n][i] == es[i] && es[i].key != es[n].key;
    }
  }

  lemma OneMoreKey(front: seq<Entry>, e: Entry)
    ensures KeySet(front + [e]) == KeySet(front) + {e.key}
  {
    var all := front + [e];
    assert all[|front|] == e;
    forall k | k in KeySet(front) ensures k in KeySet(all) {
      var i :| 0 <= i < |front| && front[i].key == k;
      assert all[i].key == k;
    }
    forall k | k in KeySet(all) ensures k in KeySet(front) + {e.key} {
      var i :| 0 <= i < |all| && all[i].key == k;
      if i < |front| { assert front[i].key == k; }
    }
  }

  // ---------------------------------------------------------------- sequences of calls

  datatype Op =
    | DoGet(key: string, now: int)
    | DoSet(key: string, messages: Messages, now: int)
    | DoDelete(keys: seq<string>)
    | DoClear
    | DoStats(now: int)

  function Apply(cfg: Config, es: seq<Entry>, op: Op): seq<Entry>
    requires cfg.maxEntries > 0
  {
    match op
    case DoGet(k, now) => AfterGet(es, k, now)
    case DoSet(k, m, now) => AfterSet(cfg, es, k, m, now)
    case DoDelete(ks) => AfterDelete(es, ks)
    case DoClear => []
    case DoStats(now) => Live(es, now)
  }

  /** The contents after a sequence of calls on a new cache. */
  function After(cfg: Config, ops: seq<Op>): seq<Entry>
    requires cfg.maxEntries > 0
  {
    if ops == [] then [] else Apply(cfg, After(cfg, ops[..|ops| - 1]), ops[|ops| - 1])
  }

  lemma {:induction false} WithoutGone(es: seq<Entry>, k: string)
    ensures forall e :: e in Without(es, k) <==> e in es && e.key != k
    ensures DistinctEntries(es) ==> DistinctEntries(Without(es, k))
  {
    if es != [] {
      WithoutGone(es[1..], k);
      assert es == [es[0]] + es[1..];
    }
  }

  lemma {:induction false} LiveKept(es: seq<Entry>, now: int)
    ensures forall e :: e in Live(es, now) <==> e in es && !Expired(e.expiresAt, now)
    ensures DistinctEntries(es) ==> DistinctEntries(Live(es, now))
  {
    if es != [] {
      LiveKept(es[1..], now);
      assert es == [es[0]] + es[1..];
    }
  }

  lemma {:induction false} DeleteGone(es: seq<Entry>, ks: seq<string>)
    ensures forall e :: e in AfterDelete(es, ks) <==> e in es && e.key !in ks
    ensures DistinctEntries(es) ==> DistinctEntries(AfterDelete(es, ks))
    ensures |AfterDelete(es, ks)| <= |es|
    decreases |ks|
  {
    if ks != [] {
      WithoutGone(es, ks[0]);
      DeleteGone(Without(es, ks[0]), ks[1..]);
      assert ks == [ks[0]] + ks[1..];
    }
  }

  lemma {:induction false} LookupIn(es: seq<Entry>, k: string)
    ensures Lookup(es, k).Some? ==> Lookup(es, k).value in es && Lookup(es, k).value.key == k
    ensures Lookup(es, k).None? ==> forall e :: e in es ==> e.key != k
  {
    if es != [] {
      LookupIn(es[1..], k);
      assert es == [es[0]] + es[1..];
    }
  }

  /** Each key at most once, never more than the capacity: after any calls at all. */
  lemma {:induction false} BoundedAndDistinct(cfg: Config, ops: seq<Op>)
    requires cfg.maxEntries > 0
    ensures DistinctEntries(After(cfg, ops)) && |After(cfg, ops)| <= cfg.maxEntries
    decreases |ops|
  {
    if ops != [] {
      var es, op := After(cfg, ops[..|ops| - 1]), ops[|ops| - 1];
      BoundedAndDistinct(cfg, ops[..|ops| - 1]);
      if op.DoDelete? {
        DeleteGone(es, op.keys);
      } else if op.DoStats? {
        LiveKept(es, op.now);
      } else if op.DoGet? {
        GetKeeps(es, op.key, op.now);
      } else if op.DoSet? {
        FrontIsDistinct(es, Entry(op.key, op.messages, ExpiryAt(cfg, op.now)));
      }
    }
  }

  lemma FrontIsDistinct(es: seq<Entry>, e: Entry)
    requires DistinctEntries(es)
    ensures DistinctEntries(Without(es, e.key)) && DistinctEntries([e] + Without(es, e.key))
  {
    WithoutGone(es, e.key);
    var rest := Without(es, e.key);
    assert forall i :: 0 <= i < |rest| ==> rest[i] in rest && rest[i].key != e.key;
  }

  lemma GetKeeps(es: seq<Entry>, k: string, now: int)
    requires DistinctEntries(es)
    ensures DistinctEntries(AfterGet(es, k, now)) && |AfterGet(es, k, now)| <= |es|
  {
    LookupIn(es, k);
    if Lookup(es, k).Some? {
      var e := Lookup(es, k).value;
      var i: nat :| i < |es| && es[i] == e;
      PresentEntry(es, i);
      FrontIsDistinct(es, e);
    }
  }

  /** The latest value set for a key and not taken back since, with its expiry. */
  function LatestSet(cfg: Config, ops: seq<Op>, k: string): Option<Entry> {
    if ops == [] then None
    else match ops[|ops| - 1]
      case DoSet(key, m, now) =>
        if key == k then Some(Entry(k, m, ExpiryAt(cfg, now))) else LatestSet(cfg, ops[..|ops| - 1], k)
      case DoDelete(ks) => if k in ks then None else LatestSet(cfg, ops[..|ops| - 1], k)
      case DoClear => None
      case DoGet(_, _) => LatestSet(cfg, ops[..|ops| - 1], k)
      case DoStats(_) => LatestSet(cfg, ops[..|ops| - 1], k)
  }

  /** Whatever the cache holds for a key is that key's latest set. */
  lemma {:induction false} HoldsLatest(cfg: Config, ops: seq<Op>, e: Entry)
    requires cfg.maxEntries > 0 && e in After(cfg, ops)
    ensures LatestSet(cfg, ops, e.key) == Some(e)
    decreases |ops|
  {
    var before, op := ops[..|ops| - 1], ops[|ops| - 1];
    var es := After(cfg, before);
    if op.DoDelete? {
      DeleteGone(es, op.keys);
      HoldsLatest(cfg, before, e);
    } else if op.DoStats? {
      LiveKept(es, op.now);
      HoldsLatest(cfg, before, e);
    } else {
      WithoutGone(es, op.key);
      LookupIn(es, op.key);
      if e in es && !(op.DoSet? && op.key == e.key) {
        HoldsLatest(cfg, before, e);
      }
    }
  }

  /**
   * A hit answers with the latest value set for the key, which has not expired, been deleted or been
   * cleared since.
   */
  lemma HitIsLatest(cfg: Config, ops: seq<Op>, k: string, now: int)
    requires cfg.maxEntries > 0 && Found(After(cfg, ops), k, now).Some?
    ensures var latest := LatestSet(cfg, ops, k);
            && latest.Some? && !Expired(latest.value.expiresAt, now)
            && Found(After(cfg, ops), k, now) == Some(latest.value.messages)
  {
    LookupIn(After(cfg, ops), k);
    HoldsLatest(cfg, ops, Lookup(After(cfg, ops), k).value);
  }

  /** Call number `n` set the key, and nothing set it again or took it back since. */
  ghost predicate LastSetAt(ops: seq<Op>, k: string, n: nat) {
    && n < |ops| && ops[n].DoSet? && ops[n].key == k
    && forall j :: n < j < |ops| ==>
         !(ops[j].DoSet? && ops[j].key == k) && !(ops[j].DoDelete? && k in ops[j].keys) && !ops[j].DoClear?
  }

  lemma {:induction false} LatestSetIsLast(cfg: Config, ops: seq<Op>, k: string) returns (n: nat)
    requires LatestSet(cfg, ops, k).Some?
    ensures LastSetAt(ops, k, n)
    ensures LatestSet(cfg, ops, k).value == Entry(k, ops[n].messages, ExpiryAt(cfg, ops[n].now))
    decreases |ops|
  {
    var last := ops[|ops| - 1];
    if last.DoSet? && last.key == k {
      n := |ops| - 1;
    } else {
      n := LatestSetIsLast(cfg, ops[..|ops| - 1], k);
    }
  }

  /**
   * Whether a key that the cache holds is found is decided by the age of its last set alone: with a time to live
   * it is found exactly before that much time has passed, and without one always.
   */
  lemma HitIsYoungExactly(cfg: Config, ops: seq<Op>, k: string, now: int) returns (n: nat)
    requires cfg.maxEntries > 0 && k in Keys(After(cfg, ops))
    ensures LastSetAt(ops, k, n)
    ensures Found(After(cfg, ops), k, now)
         == if cfg.ttl <= 0 || now < ops[n].now + cfg.ttl then Some(ops[n].messages) else None
  {
    var es := After(cfg, ops);
    var i :| 0 <= i < |es| && Keys(es)[i] == k;
    LookupIn(es, k);
    assert es[i] in es && es[i].key == k;
    HoldsLatest(cfg, ops, Lookup(es, k).value);
    n := LatestSetIsLast(cfg, ops, k);
  }

  /** And a key that it does not hold is not found. */
  lemma AbsentIsNotFound(cfg: Config, ops: seq<Op>, k: string, now: int)
    requires cfg.maxEntries > 0 && k !in Keys(After(cfg, ops))
    ensures Found(After(cfg, ops), k, now) == None
  {
    var es := After(cfg, ops);
    LookupIn(es, k);
    assert forall i :: 0 <= i < |es| ==> Keys(es)[i] == es[i].key;
  }

  // ---------------------------------------------------------------- recency

  function WithoutKey(ks: seq<string>, k: string): seq<string> {
    if ks == [] then [] else if ks[0] == k then WithoutKey(ks[1..], k) else [ks[0]] + WithoutKey(ks[1..], k)
  }

  /** The distinct keys of a list, each at its first place. */
  function FirstPlaces(ks: seq<string>): seq<string> {
    if ks == [] then [] else [ks[0]] + WithoutKey(FirstPlaces(ks[1..]), ks[0])
  }

  /** The keys that were set or hit, latest first. */
  function Touches(cfg: Config, ops: seq<Op>): seq<string>
    requires cfg.maxEntries > 0
  {
    if ops == [] then []
    else var before, op := ops[..|ops| - 1], ops[|ops| - 1];
      if op.DoSet? || (op.DoGet? && Found(After(cfg, before), op.key, op.now).Some?)
      then [op.key] + Touches(cfg, before) else Touches(cfg, before)
  }

  function FirstIndex(ks: seq<string>, k: string): nat {
    if ks == [] || ks[0] == k then 0 else 1 + FirstIndex(ks[1..], k)
  }

  lemma {:induction false} WithoutKeyIn(ks: seq<string>, k: string)
    ensures forall x :: x in WithoutKey(ks, k) <==> x in ks && x != k
    ensures |WithoutKey(ks, k)| <= |ks|
  {
    if ks != [] {
      WithoutKeyIn(ks[1..], k);
      assert ks == [ks[0]] + ks[1..];
    }
  }

  /** `order` lists exactly the keys of `ks`, by the place where each first appears. */
  ghost predicate ByFirstIndex(order: seq<string>, ks: seq<string>) {
    && (forall k :: k in order <==> k in ks)
    && (forall i, j :: 0 <= i < j < |order| ==> FirstIndex(ks, order[i]) < FirstIndex(ks, order[j]))
  }

  lemma {:induction false} OrderWithout(order: seq<string>, ks: seq<string>, k: string)
    requires forall i, j :: 0 <= i < j < |order| ==> FirstIndex(ks, order[i]) < FirstIndex(ks, order[j])
    ensures var r := WithoutKey(order, k);
            forall i, j :: 0 <= i < j < |r| ==> FirstIndex(ks, r[i]) < FirstIndex(ks, r[j])
  {
    if order != [] {
      OrderWithout(order[1..], ks, k);
      WithoutKeyIn(order[1..], k);
      var r := WithoutKey(order[1..], k);
      forall j | 0 <= j < |r| ensures FirstIndex(ks, order[0]) < FirstIndex(ks, r[j]) {
        assert r[j] in order[1..];
      }
    }
  }

  /** What FirstPlaces means: distinct keys, ordered by their latest touch. */
  lemma {:induction false} FirstPlacesOrder(ks: seq<string>)
    ensures ByFirstIndex(FirstPlaces(ks), ks)
  {
    if ks != [] {
      var rest := FirstPlaces(ks[1..]);
      FirstPlacesOrder(ks[1..]);
      OrderWithout(rest, ks[1..], ks[0]);
      WithoutKeyIn(rest, ks[0]);
      assert ks == [ks[0]] + ks[1..];
      var later := WithoutKey(rest, ks[0]);
      forall j | 0 <= j < |later| ensures FirstIndex(ks, later[j]) == 1 + FirstIndex(ks[1..], later[j]) {
        assert later[j] in later;
      }
      assert FirstPlaces(ks) == [ks[0]] + later;
    }
  }

  lemma {:induction false} KeysWithout(es: seq<Entry>, k: string)
    ensures Keys(Without(es, k)) == WithoutKey(Keys(es), k)
  {
    if es != [] {
      KeysWithout(es[1..], k);
      assert Keys(es)[1..] == Keys(es[1..]);
      if es[0].key != k {
        assert Keys([es[0]] + Without(es[1..], k)) == [es[0].key] + Keys(Without(es[1..], k));
      }
    }
  }

  ghost predicate DistinctStrings(ks: seq<string>) {
    forall i, j :: 0 <= i < j < |ks| ==> ks[i] != ks[j]
  }

  lemma {:induction false} WithoutAbsentKey(ks: seq<string>, k: string)
    requires k !in ks
    ensures WithoutKey(ks, k) == ks
  {
    if ks != [] { WithoutAbsentKey(ks[1..], k); }
  }

  /** Moving a key to the front commutes with cutting the list at the capacity. */
  lemma TouchThenCut(ks: seq<string>, k: string, n: nat)
    requires DistinctStrings(ks) && n > 0
    ensures FirstN([k] + WithoutKey(FirstN(ks, n), k), n) == FirstN([k] + WithoutKey(ks, k), n)
  {
    CutWithout(ks, k, n);
    var a, b := WithoutKey(FirstN(ks, n), k), WithoutKey(ks, k);
    assert FirstN([k] + a, n) == [k] + FirstN(a, n - 1);
    assert FirstN([k] + b, n) == [k] + FirstN(b, n - 1);
  }

  lemma {:induction false} CutWithout(ks: seq<string>, k: string, n: nat)
    requires DistinctStrings(ks) && n > 0
    ensures FirstN(WithoutKey(FirstN(ks, n), k), n - 1) == FirstN(WithoutKey(ks, k), n - 1)
    decreases |ks|
  {
    if |ks| > n {
      var rest := ks[1..];
      assert FirstN(ks, n)[1..] == FirstN(rest, n - 1);
      if ks[0] == k {
        WithoutAbsentKey(rest, k);
        WithoutAbsentKey(FirstN(rest, n - 1), k);
      } else if n > 1 {
        CutWithout(rest, k, n - 1);
        var a, b := WithoutKey(FirstN(rest, n - 1), k), WithoutKey(rest, k);
        assert FirstN([ks[0]] + a, n - 1) == [ks[0]] + FirstN(a, n - 2);
        assert FirstN([ks[0]] + b, n - 1) == [ks[0]] + FirstN(b, n - 2);
      }
    }
  }

  /** The call comes upon an entry that has expired: a Get upon its own key's, Stats upon any. */
  ghost predicate MeetsExpired(es: seq<Entry>, op: Op) {
    (op.DoGet? || op.DoStats?) && exists e :: e in es && (op.DoGet? ==> e.key == op.key) && Expired(e.expiresAt, op.now)
  }

  /** Only Gets, Sets and Stats, and none of them meets an expired entry. */
  ghost predicate NothingExpires(cfg: Config, ops: seq<Op>)
    requires cfg.maxEntries > 0
  {
    forall n :: 0 <= n < |ops| ==> (ops[n].DoGet? || ops[n].DoSet? || ops[n].DoStats?) && !MeetsExpired(After(cfg, ops[..n]), ops[n])
  }

  /**
   * Without deletion and expiry, the cache holds exactly the `maxEntries` keys that were most recently
   * set or hit, in that order.
   */
  lemma {:induction false} HoldsMostRecent(cfg: Config, ops: seq<Op>)
    requires cfg.maxEntries > 0 && NothingExpires(cfg, ops)
    ensures Keys(After(cfg, ops)) == FirstN(FirstPlaces(Touches(cfg, ops)), cfg.maxEntries)
    decreases |ops|
  {
    if ops != [] {
      var before, op := ops[..|ops| - 1], ops[|ops| - 1];
      EarlierNothingExpires(cfg, ops);
      HoldsMostRecent(cfg, before);
      var es := After(cfg, before);
      if op.DoStats? {
        LiveAll(es, op.now);
      } else {
        MostRecentStep(cfg, before, op);
      }
    }
  }

  lemma EarlierNothingExpires(cfg: Config, ops: seq<Op>)
    requires cfg.maxEntries > 0 && ops != [] && NothingExpires(cfg, ops)
    ensures NothingExpires(cfg, ops[..|ops| - 1])
    ensures !MeetsExpired(After(cfg, ops[..|ops| - 1]), ops[|ops| - 1])
  {
    var before := ops[..|ops| - 1];
    forall n | 0 <= n < |before| ensures before[n] == ops[n] && before[..n] == ops[..n] {
    }
  }

  lemma MostRecentStep(cfg: Config, before: seq<Op>, op: Op)
    requires cfg.maxEntries > 0 && (op.DoGet? || op.DoSet?) && !MeetsExpired(After(cfg, before), op)
    requires Keys(After(cfg, before)) == FirstN(FirstPlaces(Touches(cfg, before)), cfg.maxEntries)
    ensures Keys(After(cfg, before + [op])) == FirstN(FirstPlaces(Touches(cfg, before + [op])), cfg.maxEntries)
  {
    var ops, es, touched := before + [op], After(cfg, before), FirstPlaces(Touches(cfg, before));
    assert ops[..|before|] == before;
    FirstPlacesOrder(Touches(cfg, before));
    TouchThenCut(touched, op.key, cfg.maxEntries);
    if op.DoSet? {
      KeysAfterSet(cfg, es, op.key, op.messages, op.now);
    } else {
      LookupIn(es, op.key);
      if Found(es, op.key, op.now).Some? {
        KeysAfterHit(es, op.key, op.now);
        BoundedAndDistinct(cfg, ops);
      }
    }
  }

  lemma {:induction false} LiveAll(es: seq<Entry>, now: int)
    requires forall e :: e in es ==> !Expired(e.expiresAt, now)
    ensures Live(es, now) == es
  {
    if es != [] {
      assert es[0] in es && forall e :: e in es[1..] ==> e in es;
      LiveAll(es[1..], now);
    }
  }

  lemma KeysAfterSet(cfg: Config, es: seq<Entry>, k: string, m: Messages, now: int)
    requires cfg.maxEntries > 0
    ensures Keys(AfterSet(cfg, es, k, m, now)) == FirstN([k] + WithoutKey(Keys(es), k), cfg.maxEntries)
  {
    KeysWithout(es, k);
    var all := [Entry(k, m, ExpiryAt(cfg, now))] + Without(es, k);
    assert Keys(all) == [k] + WithoutKey(Keys(es), k);
    assert Keys(FirstN(all, cfg.maxEntries)) == FirstN(Keys(all), cfg.maxEntries);
  }

  lemma KeysAfterHit(es: seq<Entry>, k: string, now: int)
    requires Found(es, k, now).Some?
    ensures Keys(AfterGet(es, k, now)) == [k] + WithoutKey(Keys(es), k)
  {
    KeysWithout(es, k);
    LookupIn(es, k);
    var e := Lookup(es, k).value;
    assert Keys([e] + Without(es, k)) == [k] + Keys(Without(es, k));
  }

  /** A cache without a time to live meets no expired entry. */
  lemma NoTtlNothingExpires(cfg: Config, ops: seq<Op>)
    requires cfg.maxEntries > 0 && cfg.ttl <= 0
    requires forall op :: op in ops ==> op.DoGet? || op.DoSet? || op.DoStats?
    ensures NothingExpires(cfg, ops)
  {
    forall n | 0 <= n < |ops| ensures !MeetsExpired(After(cfg, ops[..n]), ops[n]) {
      forall e | e in After(cfg, ops[..n]) ensures e.expiresAt == None {
        HoldsLatest(cfg, ops[..n], e);
        LatestNeverExpires(cfg, ops[..n], e.key);
      }
    }
    assert forall n :: 0 <= n < |ops| ==> ops[n] in ops;
  }

  lemma {:induction false} LatestNeverExpires(cfg: Config, ops: seq<Op>, k: string)
    requires cfg.ttl <= 0
    ensures LatestSet(cfg, ops, k).Some? ==> LatestSet(cfg, ops, k).value.expiresAt == None
    decreases |ops|
  {
    if ops != [] { LatestNeverExpires(cfg, ops[..|ops| - 1], k); }
  }
}
