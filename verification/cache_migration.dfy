/** Migration of the semantic cache to a new embedding version, services/cache_migration.py,
    over the upsert of services/cache_manager.py. The collection is a map from `_id`; a query
    returns any page of what it matches, in any order. */
module CacheMigration {
  import opened Wrappers

  type Args = map<string, string>
  type Vector = seq<real>

  datatype Doc = Doc(
    tenant: Option<string>, tool: Option<string>, args: Option<Args>, hash: Option<string>,
    version: Option<string>, embedding: Vector, result: string)

  datatype ObjectId = ObjectId(n: int)

  type Docs = map<ObjectId, Doc>

  /** The tenant being migrated and its active embedding service. */
  datatype Target = Target(
    tenant: string, version: string,
    serialize: (string, Args) -> string, digest: string -> string, embed: string -> Vector)

  /** The fields the upsert of an active document matches on. */
  datatype Key = Key(tool: string, hash: string)

  predicate IsStale(t: Target, d: Doc) {
    d.version != Some(t.version)
  }

  /** A tool name and an argument object are there. */
  predicate WellFormed(d: Doc) {
    d.tool.Some? && d.args.Some?
  }

  function Text(t: Target, d: Doc): string
    requires WellFormed(d)
  {
    t.serialize(d.tool.value, d.args.value)
  }

  function KeyOf(t: Target, d: Doc): Key
    requires WellFormed(d)
  {
    Key(d.tool.value, t.digest(Text(t, d)))
  }

  predicate Matches(t: Target, key: Key, d: Doc) {
    d.tenant == Some(t.tenant) && d.tool == Some(key.tool) && d.hash == Some(key.hash) && !IsStale(t, d)
  }

  /** The active document a stale one turns into. */
  function Stored(t: Target, d: Doc, vector: Vector): Doc
    requires WellFormed(d)
  {
    Doc(Some(t.tenant), d.tool, d.args, Some(KeyOf(t, d).hash), Some(t.version), vector, d.result)
  }

  function Stale(t: Target, docs: Docs): set<ObjectId> {
    set id | id in docs && IsStale(t, docs[id])
  }

  function Active(t: Target, docs: Docs): Docs {
    map id | id in docs && !IsStale(t, docs[id]) :: docs[id]
  }

  function Range(ids: seq<ObjectId>): set<ObjectId> {
    set id | id in ids
  }

  function Max(a: int, b: int): int {
    if a > b then a else b
  }

  function PageSize(batchSize: int, configured: int): (size: int)
    ensures size > 0
    ensures batchSize > 0 ==> size == batchSize
    ensures batchSize <= 0 ==> size == if configured > 1 then configured else 1
  {
    if batchSize > 0 then batchSize else Max(1, configured)
  }

  ghost predicate Distinct(ids: seq<ObjectId>) {
    forall i, j :: 0 <= i < j < |ids| ==> ids[i] != ids[j]
  }

  lemma RangeAppended(ids: seq<ObjectId>, id: ObjectId)
    requires Distinct(ids) && id !in Range(ids)
    ensures Range(ids + [id]) == Range(ids) + {id} && Distinct(ids + [id])
  {
    assert forall i :: 0 <= i < |ids| ==> ids[i] in Range(ids);
  }

  lemma EmptyRange()
    ensures Range([]) == {} && Distinct([])
  {
  }

  method TakeSome(ids: set<ObjectId>, limit: int) returns (page: seq<ObjectId>)
    requires limit > 0
    ensures Range(page) <= ids && Distinct(page)
    ensures |page| <= limit
    ensures |page| < limit ==> Range(page) == ids
  {
    hide Range, Distinct;
    var left := ids;
    page := [];
    EmptyRange();
    while |page| < limit && left != {}
      invariant left <= ids && Range(page) == ids - left
      invariant Distinct(page) && |page| <= limit
      decreases |left|
    {
      var id :| id in left;
      RangeAppended(page, id);
      page, left := page + [id], left - {id};
    }
  }

  /** What the filter of an upsert finds. */
  ghost predicate Finds(t: Target, docs: Docs, key: Key, found: Option<ObjectId>) {
    match found
    case Some(id) => id in docs && Matches(t, key, docs[id])
    case None => forall id :: id in docs ==> !Matches(t, key, docs[id])
  }

  class Collection {
    var docs: Docs

    /** One page of the stale documents: any `limit` of them, or all if they are fewer. */
    method FindStale(t: Target, limit: int) returns (page: seq<ObjectId>)
      requires limit > 0
      ensures Range(page) <= Stale(t, docs) && Distinct(page)
      ensures |page| <= limit
      ensures |page| < limit ==> Range(page) == Stale(t, docs)
    {
      page := TakeSome(Stale(t, docs), limit);
    }

    /** The first half of an upsert: any one document that matches. */
    method FindActive(t: Target, key: Key) returns (found: Option<ObjectId>)
      ensures Finds(t, docs, key, found)
    {
      var matching := set id | id in docs && Matches(t, key, docs[id]);
      if matching == {} {
        assert forall id :: id in docs && Matches(t, key, docs[id]) ==> id in matching;
        return None;
      }
      var id :| id in matching;
      found := Some(id);
    }

    /** The second half: what was found is overwritten, otherwise a document inserted. */
    method Put(t: Target, d: Doc, vector: Vector, found: Option<ObjectId>) returns (ghost at: ObjectId)
      requires WellFormed(d)
      requires found.Some? ==> found.value in docs
      modifies this
      ensures docs == old(docs)[at := Doc(
        Some(t.tenant), d.tool, d.args, Some(t.digest(t.serialize(d.tool.value, d.args.value))), Some(t.version), vector, d.result)]
      ensures found.Some? ==> at == found.value
      ensures found.None? ==> at !in old(docs)
    {
      var target: ObjectId;
      if found.Some? {
        target := found.value;
      } else {
        target := UnusedId(docs.Keys);
      }
      docs := docs[target := Stored(t, d, vector)];
      at := target;
    }

    /** `update_one` with upsert, with nothing in between: any one matching document is
        overwritten, or one inserted. */
    method Store(t: Target, d: Doc, vector: Vector) returns (ghost at: ObjectId)
      requires WellFormed(d)
      modifies this
      ensures docs == old(docs)[at := Stored(t, d, vector)]
      ensures at in old(docs) ==> Matches(t, KeyOf(t, d), old(docs)[at])
      ensures at !in old(docs) ==> forall id :: id in old(docs) ==> !Matches(t, KeyOf(t, d), old(docs)[id])
    {
      var found := FindActive(t, KeyOf(t, d));
      at := Put(t, d, vector, found);
    }

    method DeletePage(page: seq<ObjectId>) returns (removed: nat)
      modifies this
      ensures docs == old(docs) - Range(page)
      ensures removed == |old(docs)| - |docs|
    {
      removed := |docs| - |docs - Range(page)|;
      docs := docs - Range(page);
    }
  }

  method UnusedId(ids: set<ObjectId>) returns (id: ObjectId)
    ensures id !in ids
  {
    var n := 0;
    var left := ids;
    while left != {}
      invariant left <= ids
      invariant forall i :: i in ids && i !in left ==> i.n < n
      decreases |left|
    {
      var i :| i in left;
      n, left := Max(n, i.n + 1), left - {i};
    }
    id := ObjectId(n);
  }

  // ---- Counting pages ---------------------------------------------------------------------

  lemma {:induction false} RangeSize(ids: seq<ObjectId>)
    requires Distinct(ids)
    ensures |Range(ids)| == |ids|
  {
    if ids == [] {
      assert Range(ids) == {};
    } else {
      var last := ids[|ids| - 1];
      RangeSize(ids[..|ids| - 1]);
      assert ids == ids[..|ids| - 1] + [last];
      assert Range(ids) == Range(ids[..|ids| - 1]) + {last};
    }
  }

  lemma SubsetSize(small: set<ObjectId>, large: set<ObjectId>)
    requires small <= large
    ensures |large - small| == |large| - |small|
  {
    assert large == small + (large - small);
  }

  lemma PageDeleted(t: Target, docs: Docs, page: seq<ObjectId>)
    requires Range(page) <= Stale(t, docs) && Distinct(page)
    ensures Stale(t, docs - Range(page)) == Stale(t, docs) - Range(page)
    ensures |Stale(t, docs - Range(page))| == |Stale(t, docs)| - |page|
    ensures |docs - Range(page)| == |docs| - |page|
    ensures Active(t, docs - Range(page)) == Active(t, docs)
  {
    RangeSize(page);
    SubsetSize(Range(page), Stale(t, docs));
    SubsetSize(Range(page), docs.Keys);
    assert (docs - Range(page)).Keys == docs.Keys - Range(page);
    assert |(docs - Range(page)).Keys| == |docs - Range(page)|;
  }

  /** Purge leaves exactly the active documents, whatever pages the queries return. */
  method PurgeStaleEntries(c: Collection, t: Target, pageSize: int) returns (deleted: nat)
    requires pageSize > 0
    modifies c
    ensures forall id :: id in c.docs <==> id in old(c.docs) && old(c.docs)[id].version == Some(t.version)
    ensures forall id :: id in c.docs ==> c.docs[id] == old(c.docs)[id]
    ensures deleted == |old(c.docs)| - |c.docs|
    ensures c.docs == Active(t, old(c.docs)) && deleted == |Stale(t, old(c.docs))|
  {
    deleted := 0;
    while true
      invariant Active(t, c.docs) == Active(t, old(c.docs))
      invariant deleted + |Stale(t, c.docs)| == |Stale(t, old(c.docs))| && deleted + |c.docs| == |old(c.docs)|
      decreases |Stale(t, c.docs)|
    {
      var page := c.FindStale(t, pageSize);
      PageDeleted(t, c.docs, page);
      if page == [] {
        NothingStale(t, c.docs);
        break;
      }
      var removed := c.DeletePage(page);
      if removed == 0 {
        break;
      }
      deleted := deleted + removed;
    }
  }

  lemma NothingStale(t: Target, docs: Docs)
    requires Stale(t, docs) == {}
    ensures Active(t, docs) == docs
  {
    forall id | id in docs
      ensures !IsStale(t, docs[id])
    {
      assert id !in Stale(t, docs);
    }
  }

  // ---- Re-embedding -----------------------------------------------------------------------

  function Usable(t: Target, docs: Docs): set<ObjectId> {
    set id | id in docs && IsStale(t, docs[id]) && WellFormed(docs[id])
  }

  function WellFormedIds(docs: Docs, page: seq<ObjectId>): set<ObjectId> {
    set id | id in page && id in docs && WellFormed(docs[id])
  }

  /** `stored` is what re-embedding one of the original stale documents writes. */
  ghost predicate Supplied(t: Target, original: Docs, stored: Doc) {
    exists id :: id in Usable(t, original) && stored == Stored(t, original[id], t.embed(Text(t, original[id])))
  }

  /** The key has an active document, written from one of the original stale ones. */
  ghost predicate Answered(t: Target, original: Docs, docs: Docs, key: Key) {
    exists id :: id in docs && Matches(t, key, docs[id]) && Supplied(t, original, docs[id])
  }

  ghost predicate Unchanged(original: Docs, docs: Docs, id: ObjectId) {
    id in original && id in docs && docs[id] == original[id]
  }

  ghost predicate StaleKept(t: Target, original: Docs, docs: Docs) {
    forall id :: id in docs && IsStale(t, docs[id]) ==> Unchanged(original, docs, id)
  }

  ghost predicate Sourced(t: Target, original: Docs, docs: Docs) {
    forall id :: id in docs && !IsStale(t, docs[id]) ==> Unchanged(original, docs, id) || Supplied(t, original, docs[id])
  }

  ghost predicate Survives(t: Target, original: Docs, docs: Docs) {
    forall id :: id in Usable(t, original) ==> Unchanged(original, docs, id) || Answered(t, original, docs, KeyOf(t, original[id]))
  }

  ghost predicate SameKey(d: Doc, e: Doc) {
    d.tenant == e.tenant && d.tool == e.tool && d.hash == e.hash && d.version == e.version
  }

  ghost predicate ActiveKept(t: Target, original: Docs, docs: Docs) {
    forall id :: id in original && !IsStale(t, original[id]) ==> id in docs && SameKey(docs[id], original[id])
  }

  /** Two active documents of one key. */
  ghost predicate AreTwins(t: Target, docs: Docs, i: ObjectId, j: ObjectId) {
    i in docs && j in docs && i != j && !IsStale(t, docs[i]) && SameKey(docs[i], docs[j])
  }

  /** Two stale documents that would be re-embedded under one key. */
  ghost predicate Compete(t: Target, original: Docs, i: ObjectId, j: ObjectId) {
    && i in Usable(t, original) && j in Usable(t, original) && i != j
    && KeyOf(t, original[i]) == KeyOf(t, original[j])
  }

  /** The key had no active document, and more than one stale document to make it from. */
  ghost predicate Contested(t: Target, original: Docs, key: Key) {
    && (forall id :: id in original ==> !Matches(t, key, original[id]))
    && exists i, j :: Compete(t, original, i, j) && KeyOf(t, original[i]) == key
  }

  /** Twins were twins before, or belong to a contested key. */
  ghost predicate TwinsExplained(t: Target, original: Docs, docs: Docs) {
    forall i, j :: AreTwins(t, docs, i, j) ==> AreTwins(t, original, i, j) || OfContestedKey(t, original, docs[i])
  }

  ghost predicate OfContestedKey(t: Target, original: Docs, d: Doc) {
    exists key :: Contested(t, original, key) && Matches(t, key, d)
  }

  ghost predicate Migrates(t: Target, original: Docs, docs: Docs) {
    && StaleKept(t, original, docs)
    && Sourced(t, original, docs)
    && Survives(t, original, docs)
    && ActiveKept(t, original, docs)
    && TwinsExplained(t, original, docs)
  }

  /** What the writing half of an upsert does to the collection. */
  ghost predicate Upserts(t: Target, docs: Docs, after: Docs, d: Doc, at: ObjectId) {
    && WellFormed(d)
    && after == docs[at := Stored(t, d, t.embed(Text(t, d)))]
    && (at in docs ==> Matches(t, KeyOf(t, d), docs[at]))
  }

  /** An insertion beside a document of the same key is of a contested key. */
  ghost predicate InsertsFairly(t: Target, original: Docs, docs: Docs, d: Doc, at: ObjectId)
    requires WellFormed(d)
  {
    at !in docs ==> (forall id :: id in docs ==> !Matches(t, KeyOf(t, d), docs[id])) || Contested(t, original, KeyOf(t, d))
  }

  lemma UpsertKeepsAnswer(t: Target, original: Docs, docs: Docs, after: Docs, id: ObjectId, at: ObjectId, key: Key)
    requires id in Usable(t, original) && Upserts(t, docs, after, original[id], at)
    requires Answered(t, original, docs, key)
    ensures Answered(t, original, after, key)
  {
    hide Usable;
    assert Supplied(t, original, after[at]);
    var k :| k in docs && Matches(t, key, docs[k]) && Supplied(t, original, docs[k]);
    assert Matches(t, key, after[k]) && Supplied(t, original, after[k]);
  }

  lemma UpsertAnswers(t: Target, original: Docs, docs: Docs, after: Docs, id: ObjectId, at: ObjectId)
    requires id in Usable(t, original) && Upserts(t, docs, after, original[id], at)
    ensures Supplied(t, original, after[at]) && Answered(t, original, after, KeyOf(t, original[id]))
  {
    assert Supplied(t, original, after[at]);
    assert Matches(t, KeyOf(t, original[id]), after[at]);
  }

  lemma UpsertKeepsStale(t: Target, docs: Docs, after: Docs, d: Doc, at: ObjectId)
    requires Upserts(t, docs, after, d, at)
    ensures Stale(t, after) == Stale(t, docs) && Usable(t, after) == Usable(t, docs)
    ensures at in after && !IsStale(t, after[at]) && (at in docs ==> !IsStale(t, docs[at]) && SameKey(after[at], docs[at]))
    ensures forall k :: k != at ==> (k in docs <==> k in after) && (k in docs ==> docs[k] == after[k])
  {
  }

  lemma UpsertTwins(t: Target, original: Docs, docs: Docs, after: Docs, d: Doc, at: ObjectId)
    requires Upserts(t, docs, after, d, at) && InsertsFairly(t, original, docs, d, at)
    requires TwinsExplained(t, original, docs)
    ensures TwinsExplained(t, original, after)
  {
    hide Contested;
    assert Matches(t, KeyOf(t, d), after[at]);
    forall i, j | AreTwins(t, after, i, j)
      ensures AreTwins(t, original, i, j) || OfContestedKey(t, original, after[i])
    {
      assert i != at ==> i in docs && docs[i] == after[i];
      assert j != at ==> j in docs && docs[j] == after[j];
      if AreTwins(t, docs, i, j) {
        SameContest(t, original, docs[i], after[i]);
      } else {
        assert Matches(t, KeyOf(t, d), after[i]) && Matches(t, KeyOf(t, d), after[j]);
      }
    }
  }

  lemma SameContest(t: Target, original: Docs, d: Doc, e: Doc)
    ensures SameKey(d, e) && OfContestedKey(t, original, d) ==> OfContestedKey(t, original, e)
  {
  }

  lemma UpsertMigrates(t: Target, original: Docs, docs: Docs, after: Docs, id: ObjectId, at: ObjectId)
    requires Migrates(t, original, docs) && id in Usable(t, original)
    requires Upserts(t, docs, after, original[id], at) && InsertsFairly(t, original, docs, original[id], at)
    ensures Migrates(t, original, after)
    ensures Stale(t, after) == Stale(t, docs) && Usable(t, after) == Usable(t, docs)
  {
    hide Answered, Supplied, Stored, Matches, TwinsExplained, InsertsFairly;
    UpsertTwins(t, original, docs, after, original[id], at);
    UpsertAnswers(t, original, docs, after, id, at);
    UpsertKeepsStale(t, docs, after, original[id], at);
    forall k | k in Usable(t, original)
      ensures Unchanged(original, after, k) || Answered(t, original, after, KeyOf(t, original[k]))
    {
      if Answered(t, original, docs, KeyOf(t, original[k])) {
        UpsertKeepsAnswer(t, original, docs, after, id, at, KeyOf(t, original[k]));
      }
    }
    hide Upserts;
    assert Sourced(t, original, after);
  }

  lemma DeleteMigrates(t: Target, original: Docs, docs: Docs, page: seq<ObjectId>)
    requires Migrates(t, original, docs) && Range(page) <= Stale(t, docs)
    requires forall id :: id in WellFormedIds(docs, page) ==> Answered(t, original, docs, KeyOf(t, docs[id]))
    ensures Migrates(t, original, docs - Range(page))
  {
    var after := docs - Range(page);
    assert Survives(t, original, after) by {
      forall k | k in Usable(t, original)
        ensures Unchanged(original, after, k) || Answered(t, original, after, KeyOf(t, original[k]))
      {
        if !Unchanged(original, after, k) {
          var id :| id in docs && Matches(t, KeyOf(t, original[k]), docs[id]) && Supplied(t, original, docs[id]);
          assert id !in Range(page) && id in after;
        }
      }
    }
  }

  /** The documents fetched under these ids. */
  ghost predicate Fetched(docs: Docs, ids: seq<ObjectId>, fetched: seq<Doc>) {
    |fetched| == |ids| && forall i :: 0 <= i < |ids| ==> ids[i] in docs && WellFormed(fetched[i]) && fetched[i] == docs[ids[i]]
  }

  /** The documents of a page that can be re-embedded, in page order. */
  function UsableOf(docs: Docs, page: seq<ObjectId>): seq<Doc> {
    if page == [] then []
    else
      var id := page[|page| - 1];
      UsableOf(docs, page[..|page| - 1]) + if id in docs && WellFormed(docs[id]) then [docs[id]] else []
  }

  lemma NoPage(docs: Docs, page: seq<ObjectId>)
    ensures WellFormedIds(docs, page[..0]) == {} && UsableOf(docs, page[..0]) == []
  {
  }

  /** One more document of a page. */
  lemma PageStep(docs: Docs, page: seq<ObjectId>, n: nat)
    requires Range(page) <= docs.Keys && Distinct(page) && n < |page|
    ensures page[n] in docs && page[n] !in WellFormedIds(docs, page[..n])
    ensures WellFormedIds(docs, page[..n + 1]) == WellFormedIds(docs, page[..n]) + if WellFormed(docs[page[n]]) then {page[n]} else {}
    ensures UsableOf(docs, page[..n + 1]) == UsableOf(docs, page[..n]) + if WellFormed(docs[page[n]]) then [docs[page[n]]] else []
  {
    assert page[n] in Range(page);
    assert page[n] !in page[..n];
    assert page[..n + 1] == page[..n] + [page[n]] && page[..n + 1][..n] == page[..n];
  }

  /** They are re-embedded, the others only counted. */
  method Partition(docs: Docs, page: seq<ObjectId>) returns (usable: seq<Doc>, skipped: nat, ghost ids: seq<ObjectId>)
    requires Range(page) <= docs.Keys && Distinct(page)
    ensures Distinct(ids) && Range(ids) == WellFormedIds(docs, page)
    ensures Fetched(docs, ids, usable)
    ensures usable == UsableOf(docs, page) && skipped == |page| - |usable|
  {
    hide Distinct, Range, WellFormedIds, UsableOf;
    usable, skipped, ids := [], 0, [];
    EmptyRange();
    NoPage(docs, page);
    for n := 0 to |page|
      invariant Distinct(ids) && Range(ids) == WellFormedIds(docs, page[..n])
      invariant Fetched(docs, ids, usable)
      invariant usable == UsableOf(docs, page[..n]) && skipped == n - |ids|
    {
      var id := page[n];
      PageStep(docs, page, n);
      if WellFormed(docs[id]) {
        RangeAppended(ids, id);
        usable, ids := usable + [docs[id]], ids + [id];
      } else {
        skipped := skipped + 1;
      }
    }
    assert page[..|page|] == page;
  }

  /** One provider round trip for the page; it may fail as a whole. */
  method EmbedTexts(t: Target, usable: seq<Doc>) returns (vectors: Option<seq<Vector>>)
    requires forall i :: 0 <= i < |usable| ==> WellFormed(usable[i])
    ensures vectors.Some? ==> |vectors.value| == |usable|
    ensures vectors.Some? ==> forall i :: 0 <= i < |usable| ==>
      WellFormed(usable[i]) && vectors.value[i] == t.embed(t.serialize(usable[i].tool.value, usable[i].args.value))
  {
    var up: bool := *;
    if !up {
      return None;
    }
    vectors := Some(seq(|usable|, i requires 0 <= i < |usable| => t.embed(Text(t, usable[i]))));
    assert forall i :: 0 <= i < |usable| ==> vectors.value[i] == t.embed(Text(t, usable[i]));
  }

  /** Where one of the concurrent writes of a page is: between its two halves it has found a
      document of its key, or none. */
  datatype Write = Waiting | Found(found: Option<ObjectId>) | Written

  /** Some other document of the page has this one's key. */
  ghost predicate SharedInPage(t: Target, usable: seq<Doc>, i: nat)
    requires i < |usable| && forall k :: 0 <= k < |usable| ==> WellFormed(usable[k])
  {
    exists j :: 0 <= j < |usable| && j != i && KeyOf(t, usable[j]) == KeyOf(t, usable[i])
  }

  /** What a write that has looked for its key may rely on until it writes. */
  ghost predicate WriteOk(t: Target, original: Docs, docs: Docs, usable: seq<Doc>, i: nat, w: Write)
    requires i < |usable| && forall k :: 0 <= k < |usable| ==> WellFormed(usable[k])
  {
    var key := KeyOf(t, usable[i]);
    match w
    case Waiting => true
    case Found(Some(id)) => id in docs && Matches(t, key, docs[id])
    case Found(None) =>
      && (forall id :: id in original ==> !Matches(t, key, original[id]))
      && (SharedInPage(t, usable, i) || forall id :: id in docs ==> !Matches(t, key, docs[id]))
    case Written => Answered(t, original, docs, key)
  }

  ghost predicate WritesOk(t: Target, original: Docs, docs: Docs, usable: seq<Doc>, writes: seq<Write>)
    requires forall k :: 0 <= k < |usable| ==> WellFormed(usable[k])
  {
    |writes| == |usable| && forall i :: 0 <= i < |usable| ==> WriteOk(t, original, docs, usable, i, writes[i])
  }

  /** The documents of a page as they were fetched, each under its own id. */
  ghost predicate PageOf(t: Target, original: Docs, ids: seq<ObjectId>, usable: seq<Doc>) {
    Fetched(original, ids, usable) && Range(ids) <= Usable(t, original) && Distinct(ids)
  }

  /** Whatever matched the key at the start still does, so finding nothing says it had nothing. */
  lemma FoundNothing(t: Target, original: Docs, docs: Docs, key: Key)
    requires ActiveKept(t, original, docs) && Finds(t, docs, key, None)
    ensures forall id :: id in original ==> !Matches(t, key, original[id])
  {
  }

  lemma FindOk(t: Target, original: Docs, docs: Docs, usable: seq<Doc>, i: nat, found: Option<ObjectId>)
    requires ActiveKept(t, original, docs)
    requires i < |usable| && forall k :: 0 <= k < |usable| ==> WellFormed(usable[k])
    requires Finds(t, docs, KeyOf(t, usable[i]), found)
    ensures WriteOk(t, original, docs, usable, i, Found(found))
  {
    hide ActiveKept;
    if found.None? {
      FoundNothing(t, original, docs, KeyOf(t, usable[i]));
    }
  }

  /** A document of this page inserted beside one of its key competes with another of the page. */
  lemma SharedIsContested(t: Target, original: Docs, ids: seq<ObjectId>, usable: seq<Doc>, i: nat)
    requires PageOf(t, original, ids, usable) && i < |usable| && SharedInPage(t, usable, i)
    requires forall id :: id in original ==> !Matches(t, KeyOf(t, usable[i]), original[id])
    ensures Contested(t, original, KeyOf(t, usable[i]))
  {
    var j :| 0 <= j < |usable| && j != i && KeyOf(t, usable[j]) == KeyOf(t, usable[i]);
    assert ids[i] in Range(ids) && ids[j] in Range(ids);
    assert Compete(t, original, ids[i], ids[j]);
  }

  lemma PutIsFair(t: Target, original: Docs, docs: Docs, ids: seq<ObjectId>, usable: seq<Doc>, i: nat, w: Write, at: ObjectId)
    requires PageOf(t, original, ids, usable) && i < |usable| && w.Found?
    requires WriteOk(t, original, docs, usable, i, w)
    requires w.found.Some? ==> at == w.found.value
    ensures InsertsFairly(t, original, docs, usable[i], at)
  {
    hide Contested, Matches;
    if w.found.None? && SharedInPage(t, usable, i) {
      SharedIsContested(t, original, ids, usable, i);
    }
  }

  /** Another write of the page leaves a write where it is. */
  lemma OthersKept(t: Target, original: Docs, docs: Docs, after: Docs, id: ObjectId, at: ObjectId, usable: seq<Doc>, i: nat, k: nat, w: Write)
    requires i < |usable| && k < |usable| && i != k && forall n :: 0 <= n < |usable| ==> WellFormed(usable[n])
    requires id in Usable(t, original) && usable[i] == original[id] && Upserts(t, docs, after, usable[i], at)
    requires WriteOk(t, original, docs, usable, k, w)
    ensures WriteOk(t, original, after, usable, k, w)
  {
    hide Usable, Supplied;
    match w {
      case Waiting =>
      case Found(Some(found)) =>
      case Found(None) =>
        assert Matches(t, KeyOf(t, usable[i]), after[at]);
        assert !SharedInPage(t, usable, k) ==> KeyOf(t, usable[i]) != KeyOf(t, usable[k]);
      case Written => UpsertKeepsAnswer(t, original, docs, after, id, at, KeyOf(t, usable[k]));
    }
  }

  /** The bounded concurrent writes of one page. Each upsert looks for its key and then
      writes, and the halves of different upserts come in any order. */
  method StorePage(c: Collection, t: Target, usable: seq<Doc>, vectors: seq<Vector>, ghost original: Docs, ghost ids: seq<ObjectId>)
    requires PageOf(t, original, ids, usable)
    requires |vectors| == |usable| && forall i :: 0 <= i < |usable| ==> WellFormed(usable[i]) && vectors[i] == t.embed(Text(t, usable[i]))
    requires Migrates(t, original, c.docs)
    modifies c
    ensures Migrates(t, original, c.docs)
    ensures Stale(t, c.docs) == Stale(t, old(c.docs)) && Usable(t, c.docs) == Usable(t, old(c.docs))
    ensures forall i :: 0 <= i < |usable| ==> WellFormed(usable[i]) && Answered(t, original, c.docs, KeyOf(t, usable[i]))
  {
    hide Migrates, WriteOk, PageOf, Answered, Stale, Usable;
    var writes := seq(|usable|, _ => Waiting);
    var left := 2 * |usable|;
    AllWaiting(t, original, c.docs, usable, writes);
    while left > 0
      invariant WritesOk(t, original, c.docs, usable, writes) && left == HalvesLeft(writes)
      invariant Migrates(t, original, c.docs)
      invariant Stale(t, c.docs) == Stale(t, old(c.docs)) && Usable(t, c.docs) == Usable(t, old(c.docs))
    {
      SomeUnwritten(writes);
      var i: nat :| i < |writes| && !writes[i].Written?;
      if writes[i].Waiting? {
        var found := LookUp(c, t, usable, i, original);
        HalfDone(writes, i, Found(found));
        writes := writes[i := Found(found)];
      } else {
        FinishWrite(c, t, usable, vectors[i], i, writes, original, ids);
        HalfDone(writes, i, Written);
        writes := writes[i := Written];
      }
      left := left - 1;
    }
    NothingLeft(t, original, c.docs, usable, writes);
  }

  /** The halves still to come. */
  function HalvesLeft(writes: seq<Write>): nat {
    if writes == [] then 0 else HalvesLeft(writes[..|writes| - 1]) + Halves(writes[|writes| - 1])
  }

  function Halves(w: Write): nat {
    if w.Waiting? then 2 else if w.Found? then 1 else 0
  }

  lemma {:induction false} AllWaitingHalves(writes: seq<Write>)
    requires forall i :: 0 <= i < |writes| ==> writes[i] == Waiting
    ensures HalvesLeft(writes) == 2 * |writes|
  {
    if writes != [] {
      AllWaitingHalves(writes[..|writes| - 1]);
    }
  }

  lemma AllWaiting(t: Target, original: Docs, docs: Docs, usable: seq<Doc>, writes: seq<Write>)
    requires forall k :: 0 <= k < |usable| ==> WellFormed(usable[k])
    requires |writes| == |usable| && forall i :: 0 <= i < |writes| ==> writes[i] == Waiting
    ensures WritesOk(t, original, docs, usable, writes) && HalvesLeft(writes) == 2 * |usable|
  {
    AllWaitingHalves(writes);
  }

  lemma {:induction false} SomeUnwritten(writes: seq<Write>)
    ensures HalvesLeft(writes) == 0 <==> forall i :: 0 <= i < |writes| ==> writes[i].Written?
  {
    if writes != [] {
      var init := writes[..|writes| - 1];
      SomeUnwritten(init);
      assert (forall i :: 0 <= i < |writes| ==> writes[i].Written?)
        <==> (forall i :: 0 <= i < |init| ==> init[i].Written?) && writes[|writes| - 1].Written?;
    }
  }

  lemma {:induction false} HalfDone(writes: seq<Write>, i: nat, w: Write)
    requires i < |writes|
    ensures HalvesLeft(writes[i := w]) == HalvesLeft(writes) - Halves(writes[i]) + Halves(w)
  {
    var init := writes[..|writes| - 1];
    if i < |init| {
      HalfDone(init, i, w);
      assert writes[i := w][..|writes| - 1] == init[i := w];
    } else {
      assert writes[i := w][..|writes| - 1] == init;
    }
  }

  lemma NothingLeft(t: Target, original: Docs, docs: Docs, usable: seq<Doc>, writes: seq<Write>)
    requires forall k :: 0 <= k < |usable| ==> WellFormed(usable[k])
    requires WritesOk(t, original, docs, usable, writes) && HalvesLeft(writes) == 0
    ensures forall i :: 0 <= i < |usable| ==> Answered(t, original, docs, KeyOf(t, usable[i]))
  {
    SomeUnwritten(writes);
    hide Answered;
    forall i | 0 <= i < |usable|
      ensures Answered(t, original, docs, KeyOf(t, usable[i]))
    {
      assert WriteOk(t, original, docs, usable, i, writes[i]);
    }
  }

  /** The first half of the i-th write. */
  method LookUp(c: Collection, t: Target, usable: seq<Doc>, i: nat, ghost original: Docs) returns (found: Option<ObjectId>)
    requires i < |usable| && forall k :: 0 <= k < |usable| ==> WellFormed(usable[k])
    requires Migrates(t, original, c.docs)
    ensures WriteOk(t, original, c.docs, usable, i, Found(found))
  {
    found := c.FindActive(t, KeyOf(t, usable[i]));
    FindOk(t, original, c.docs, usable, i, found);
  }

  /** The second half of the i-th write. */
  method FinishWrite(c: Collection, t: Target, usable: seq<Doc>, vector: Vector, i: nat, writes: seq<Write>, ghost original: Docs, ghost ids: seq<ObjectId>)
    requires PageOf(t, original, ids, usable) && i < |usable|
    requires WritesOk(t, original, c.docs, usable, writes) && writes[i].Found?
    requires Migrates(t, original, c.docs) && vector == t.embed(Text(t, usable[i]))
    modifies c
    ensures Migrates(t, original, c.docs)
    ensures Stale(t, c.docs) == Stale(t, old(c.docs)) && Usable(t, c.docs) == Usable(t, old(c.docs))
    ensures WritesOk(t, original, c.docs, usable, writes[i := Written])
  {
    hide Migrates, Answered, SharedInPage, InsertsFairly, Matches;
    ghost var before := c.docs;
    ghost var id := ids[i];
    assert id in Range(ids) && usable[i] == original[id];
    assert WriteOk(t, original, before, usable, i, writes[i]);
    ghost var at := c.Put(t, usable[i], vector, writes[i].found);
    assert Upserts(t, before, c.docs, usable[i], at);
    PutIsFair(t, original, before, ids, usable, i, writes[i], at);
    UpsertMigrates(t, original, before, c.docs, id, at);
    UpsertAnswers(t, original, before, c.docs, id, at);
    hide WriteOk, Upserts, Usable, Stale;
    var now := writes[i := Written];
    forall k | 0 <= k < |usable|
      ensures WriteOk(t, original, c.docs, usable, k, now[k])
    {
      if k != i {
        OthersKept(t, original, before, c.docs, id, at, usable, i, k, writes[k]);
      } else {
        AnsweredOk(t, original, c.docs, usable, i);
      }
    }
  }

  lemma AnsweredOk(t: Target, original: Docs, docs: Docs, usable: seq<Doc>, i: nat)
    requires i < |usable| && forall k :: 0 <= k < |usable| ==> WellFormed(usable[k])
    requires Answered(t, original, docs, KeyOf(t, usable[i]))
    ensures WriteOk(t, original, docs, usable, i, Written)
  {
  }

  /** Nothing has been done yet. */
  lemma MigrationStarts(t: Target, docs: Docs)
    ensures Migrates(t, docs, docs)
  {
  }

  /** A page of stale documents is a page of original ones. */
  lemma PageIsOriginal(t: Target, original: Docs, docs: Docs, page: seq<ObjectId>, ids: seq<ObjectId>, usable: seq<Doc>)
    requires StaleKept(t, original, docs) && Range(page) <= Stale(t, docs)
    requires Range(ids) == WellFormedIds(docs, page) && Fetched(docs, ids, usable)
    ensures Fetched(original, ids, usable) && Range(ids) <= Usable(t, original)
    ensures Range(ids) == Range(page) * Usable(t, docs)
  {
    forall i | 0 <= i < |ids|
      ensures ids[i] in original && usable[i] == original[ids[i]]
    {
      assert ids[i] in Range(ids) && ids[i] in Range(page);
    }
    forall id | id in Range(ids)
      ensures id in Usable(t, original)
    {
      assert id in Range(page) && Unchanged(original, docs, id);
    }
  }

  lemma PageAnswered(t: Target, original: Docs, fetched: Docs, now: Docs, page: seq<ObjectId>, ids: seq<ObjectId>, usable: seq<Doc>)
    requires StaleKept(t, original, fetched) && StaleKept(t, original, now)
    requires Range(page) <= Stale(t, fetched) == Stale(t, now)
    requires Range(ids) == WellFormedIds(fetched, page) && Fetched(fetched, ids, usable)
    requires forall i :: 0 <= i < |usable| ==> Answered(t, original, now, KeyOf(t, usable[i]))
    ensures forall id :: id in WellFormedIds(now, page) ==> Answered(t, original, now, KeyOf(t, now[id]))
  {
    forall id | id in WellFormedIds(now, page)
      ensures Answered(t, original, now, KeyOf(t, now[id]))
    {
      assert id in Range(page) && id in Stale(t, now) && id in Stale(t, fetched);
      assert id in Range(ids);
      var i :| 0 <= i < |ids| && ids[i] == id;
      assert usable[i] == now[id];
    }
  }

  lemma UsableDeleted(t: Target, docs: Docs, page: seq<ObjectId>, ids: seq<ObjectId>)
    requires Distinct(ids) && Range(ids) == Range(page) * Usable(t, docs)
    ensures |Usable(t, docs - Range(page))| == |Usable(t, docs)| - |ids|
  {
    RangeSize(ids);
    SubsetSize(Range(ids), Usable(t, docs));
    assert Usable(t, docs - Range(page)) == Usable(t, docs) - Range(ids);
  }

  /** A page fetched, its usable documents stored, and then deleted. */
  lemma PageDone(t: Target, original: Docs, fetched: Docs, now: Docs, page: seq<ObjectId>, ids: seq<ObjectId>, usable: seq<Doc>)
    requires Migrates(t, original, fetched) && Migrates(t, original, now)
    requires Range(page) <= Stale(t, fetched) == Stale(t, now) && Usable(t, now) == Usable(t, fetched)
    requires Distinct(page) && Distinct(ids)
    requires Range(ids) == WellFormedIds(fetched, page) && Fetched(fetched, ids, usable)
    requires forall i :: 0 <= i < |usable| ==> Answered(t, original, now, KeyOf(t, usable[i]))
    ensures Migrates(t, original, now - Range(page))
    ensures |Usable(t, now - Range(page))| == |Usable(t, fetched)| - |ids|
    ensures |Stale(t, now - Range(page))| == |Stale(t, fetched)| - |page|
    ensures |now - Range(page)| == |now| - |page|
  {
    PageAnswered(t, original, fetched, now, page, ids, usable);
    PageIsOriginal(t, original, fetched, page, ids, usable);
    hide Stale, Usable, Answered, WellFormedIds, Fetched, StaleKept, Sourced, Survives, ActiveKept, TwinsExplained;
    DeleteMigrates(t, original, now, page);
    PageDeleted(t, now, page);
    UsableDeleted(t, now, page, ids);
  }

  /** What the writes of a page rely on. */
  lemma FetchedPage(t: Target, original: Docs, fetched: Docs, page: seq<ObjectId>, ids: seq<ObjectId>, usable: seq<Doc>)
    requires Migrates(t, original, fetched) && Range(page) <= Stale(t, fetched)
    requires Range(ids) == WellFormedIds(fetched, page) && Fetched(fetched, ids, usable)
    requires Distinct(ids)
    ensures PageOf(t, original, ids, usable)
    ensures |usable| == |ids| && forall i :: 0 <= i < |usable| ==> WellFormed(usable[i])
  {
    PageIsOriginal(t, original, fetched, page, ids, usable);
  }

  lemma StaleIsStored(t: Target, docs: Docs)
    ensures Stale(t, docs) <= docs.Keys
  {
  }

  lemma NothingUsable(t: Target, docs: Docs)
    requires Stale(t, docs) == {}
    ensures Usable(t, docs) == {}
  {
    assert Usable(t, docs) <= Stale(t, docs);
  }

  /** Without two stale documents of one key no key gets a second active document. */
  lemma UncontestedHasNoNewTwins(t: Target, original: Docs, docs: Docs)
    requires Migrates(t, original, docs)
    requires forall i, j :: i in Usable(t, original) && j in Usable(t, original) && i != j && original[i].tool == original[j].tool ==>
      t.digest(t.serialize(original[i].tool.value, original[i].args.value))
      != t.digest(t.serialize(original[j].tool.value, original[j].args.value))
    ensures forall i, j :: AreTwins(t, docs, i, j) ==> AreTwins(t, original, i, j)
  {
    assert forall i, j :: !Compete(t, original, i, j);
    hide StaleKept, Sourced, Survives, ActiveKept, AreTwins, Compete, Matches;
  }

  /** Re-embedding ends with no stale document; what could be re-embedded has been, under
      its own key, and nothing is lost even when the provider fails on the way. */
  method ReembedStaleEntries(c: Collection, t: Target, pageSize: int) returns (reembedded: nat, skipped: nat, failed: bool)
    requires pageSize > 0
    modifies c
    ensures Migrates(t, old(c.docs), c.docs)
    ensures !failed ==> Stale(t, c.docs) == {}
    ensures !failed ==> reembedded == |Usable(t, old(c.docs))|
    ensures !failed ==> reembedded + skipped == |Stale(t, old(c.docs))|
  {
    hide Migrates, Stale, Usable, Fetched, Answered, WellFormedIds, PageOf;
    ghost var original := c.docs;
    reembedded, skipped, failed := 0, 0, false;
    MigrationStarts(t, c.docs);
    while true
      invariant Migrates(t, original, c.docs)
      invariant reembedded + |Usable(t, c.docs)| == |Usable(t, original)|
      invariant reembedded + skipped + |Stale(t, c.docs)| == |Stale(t, original)|
      decreases |Stale(t, c.docs)|
    {
      var page := c.FindStale(t, pageSize);
      if page == [] {
        NothingUsable(t, c.docs);
        break;
      }
      ghost var fetched := c.docs;
      StaleIsStored(t, fetched);
      var usable, left, ids := Partition(c.docs, page);
      FetchedPage(t, original, fetched, page, ids, usable);
      skipped := skipped + left;
      if usable != [] {
        var vectors := EmbedTexts(t, usable);
        if vectors.None? {
          failed := true;
          return;
        }
        StorePage(c, t, usable, vectors.value, original, ids);
        reembedded := reembedded + |usable|;
      }
      PageDone(t, original, fetched, c.docs, page, ids, usable);
      var removed := c.DeletePage(page);
      if removed == 0 && usable == [] {
        break;
      }
    }
  }

  // ---- What a finished re-embedding means -------------------------------------------------

  lemma AllAnswered(t: Target, original: Docs, docs: Docs, id: ObjectId)
    requires Survives(t, original, docs) && Stale(t, docs) == {}
    requires id in Usable(t, original)
    ensures Answered(t, original, docs, KeyOf(t, original[id]))
  {
    assert Unchanged(original, docs, id) ==> id in Stale(t, docs);
  }

  /** Every stale document with tool name and arguments is answered under the hash of exactly
      those, by an active document of the tenant with the result, the arguments and the
      vector that re-embedding one original document of that tool and hash gives. */
  lemma EveryKeyAnswered(t: Target, original: Docs, docs: Docs, id: ObjectId) returns (at: ObjectId, source: ObjectId)
    requires Migrates(t, original, docs) && Stale(t, docs) == {}
    requires id in original && original[id].version != Some(t.version) && original[id].tool.Some? && original[id].args.Some?
    ensures source in original && original[source].version != Some(t.version)
    ensures original[source].tool == original[id].tool && original[source].args.Some?
    ensures var tool, args, own := original[id].tool.value, original[source].args.value, original[id].args.value;
            && t.digest(t.serialize(tool, args)) == t.digest(t.serialize(tool, own))
            && at in docs
            && docs[at] == Doc(Some(t.tenant), Some(tool), Some(args), Some(t.digest(t.serialize(tool, own))), Some(t.version),
                               t.embed(t.serialize(tool, args)), original[source].result)
  {
    AllAnswered(t, original, docs, id);
    at :| at in docs && Matches(t, KeyOf(t, original[id]), docs[at]) && Supplied(t, original, docs[at]);
    source :| source in Usable(t, original) && docs[at] == Stored(t, original[source], t.embed(Text(t, original[source])));
  }

  /** Entries of different tools, or whose serializations have different digests, end in
      different documents. */
  lemma EntriesKeptApart(t: Target, original: Docs, docs: Docs, i: ObjectId, j: ObjectId) returns (at: ObjectId, other: ObjectId)
    requires Migrates(t, original, docs) && Stale(t, docs) == {}
    requires i in original && original[i].version != Some(t.version) && original[i].tool.Some? && original[i].args.Some?
    requires j in original && original[j].version != Some(t.version) && original[j].tool.Some? && original[j].args.Some?
    requires original[i].tool != original[j].tool
          || t.digest(t.serialize(original[i].tool.value, original[i].args.value))
             != t.digest(t.serialize(original[j].tool.value, original[j].args.value))
    ensures at in docs && other in docs && at != other
    ensures docs[at].tool == original[i].tool && docs[other].tool == original[j].tool
    ensures docs[at].hash == Some(t.digest(t.serialize(original[i].tool.value, original[i].args.value)))
    ensures docs[other].hash == Some(t.digest(t.serialize(original[j].tool.value, original[j].args.value)))
  {
    hide Migrates;
    var source;
    at, source := EveryKeyAnswered(t, original, docs, i);
    other, source := EveryKeyAnswered(t, original, docs, j);
  }

  /** The only active document of its key. */
  ghost predicate IsOnlyOne(t: Target, docs: Docs, id: ObjectId) {
    id in docs && !IsStale(t, docs[id]) && forall j :: !AreTwins(t, docs, id, j)
  }

  ghost predicate SharesKey(t: Target, original: Docs, stale: ObjectId, d: Doc) {
    && stale in original && original[stale].version != Some(t.version)
    && original[stale].tool.Some? && original[stale].args.Some?
    && d.tenant == Some(t.tenant) && d.tool == original[stale].tool && d.version == Some(t.version)
    && d.hash == Some(t.digest(t.serialize(original[stale].tool.value, original[stale].args.value)))
  }

  lemma SuppliedSharesKey(t: Target, original: Docs, d: Doc, stored: Doc)
    requires Supplied(t, original, stored) && SameKey(stored, d)
    ensures exists k :: SharesKey(t, original, k, d)
  {
    var k :| k in Usable(t, original) && stored == Stored(t, original[k], t.embed(Text(t, original[k])));
    assert SharesKey(t, original, k, d);
  }

  lemma SharedKeySupplied(t: Target, original: Docs, docs: Docs, id: ObjectId, k: ObjectId)
    requires Migrates(t, original, docs) && Stale(t, docs) == {}
    requires IsOnlyOne(t, original, id) && SharesKey(t, original, k, original[id])
    ensures id in docs && Supplied(t, original, docs[id])
  {
    hide Supplied;
    AllAnswered(t, original, docs, k);
    var answer :| answer in docs && Matches(t, KeyOf(t, original[k]), docs[answer]) && Supplied(t, original, docs[answer]);
    assert SameKey(docs[id], docs[answer]);
    ActiveNotContested(t, original, docs[id], id);
    assert !AreTwins(t, docs, id, answer);
  }

  /** A key that had an active document is not contested. */
  lemma ActiveNotContested(t: Target, original: Docs, d: Doc, id: ObjectId)
    requires id in original && !IsStale(t, original[id]) && SameKey(d, original[id])
    ensures !OfContestedKey(t, original, d)
  {
  }

  /** The writes of one page can leave two active documents for one key: both upserts look
      for it before either writes. So the exception for contested keys is needed. */
  lemma RaceMakesTwins(t: Target, docs: Docs, i: ObjectId, j: ObjectId, a: ObjectId, b: ObjectId)
    requires Compete(t, docs, i, j) && Finds(t, docs, KeyOf(t, docs[i]), None)
    requires a !in docs && b !in docs && a != b
    ensures Finds(t, docs, KeyOf(t, docs[j]), None)
    ensures var first := docs[a := Stored(t, docs[i], t.embed(Text(t, docs[i])))];
            var second := first[b := Stored(t, docs[j], t.embed(Text(t, docs[j])))];
            AreTwins(t, second, a, b) && AreTwins(t, second - {i, j}, a, b)
  {
  }

  /** Re-embedding does not spare active documents: one keeps its content if no stale
      document shares its key; the only one of its key is replaced by a stale result exactly
      if some stale document does. */
  lemma ActiveDocumentReplaced(t: Target, original: Docs, docs: Docs, id: ObjectId)
    requires Migrates(t, original, docs) && Stale(t, docs) == {}
    requires id in original && !IsStale(t, original[id])
    ensures id in docs && docs[id].tenant == original[id].tenant && docs[id].tool == original[id].tool
    ensures docs[id].hash == original[id].hash && docs[id].version == Some(t.version)
    ensures (forall k :: !SharesKey(t, original, k, original[id])) ==> docs[id] == original[id]
    ensures Supplied(t, original, docs[id]) ==> exists k :: SharesKey(t, original, k, original[id])
    ensures IsOnlyOne(t, original, id) && (exists k :: SharesKey(t, original, k, original[id])) ==> Supplied(t, original, docs[id])
  {
    hide SharesKey, Supplied, Survives, StaleKept, TwinsExplained, IsOnlyOne;
    assert SameKey(docs[id], original[id]);
    if Supplied(t, original, docs[id]) {
      SuppliedSharesKey(t, original, original[id], docs[id]);
    }
    if k :| SharesKey(t, original, k, original[id]) && IsOnlyOne(t, original, id) {
      SharedKeySupplied(t, original, docs, id, k);
    }
  }

  // ---- One tenant -------------------------------------------------------------------------

  datatype Mode = Status | Purge | Reembed

  datatype Summary = Summary(total: nat, active: nat, stale: int, purged: nat, reembedded: nat, skipped: nat, remaining: int)

  const UNVERSIONED := "unversioned"

  /** The name a document is counted under: a missing or empty version has one of its own. */
  function VersionName(d: Doc): string {
    if d.version.Some? && d.version.value != "" then d.version.value else UNVERSIONED
  }

  function Counted(docs: Docs, version: string): set<ObjectId> {
    set id | id in docs && VersionName(docs[id]) == version
  }

  /** The counts by name agree with the stale query unless the active version is itself
      empty or the name of the versionless. */
  lemma CountsAgree(t: Target, docs: Docs)
    requires t.version != "" && t.version != "unversioned"
    ensures |docs| - |Counted(docs, t.version)| == |Stale(t, docs)|
  {
    SubsetSize(Counted(docs, t.version), docs.Keys);
    assert docs.Keys - Counted(docs, t.version) == Stale(t, docs);
  }

  /** The summary of one tenant, or `None` if the provider failed; what it says remains is
      what is still stale. */
  method MigrateTenant(c: Collection, t: Target, mode: Mode, batchSize: int, configured: int) returns (summary: Option<Summary>)
    modifies c
    ensures summary.None? ==> mode == Reembed && Migrates(t, old(c.docs), c.docs)
    ensures summary.Some? ==> summary.value.total == |old(c.docs)| == summary.value.active + summary.value.stale
    ensures summary.Some? ==> var left := summary.value.stale - summary.value.purged - summary.value.reembedded - summary.value.skipped;
                              summary.value.remaining == if mode == Status || left > 0 then left else 0
    ensures summary.Some? ==> summary.value.purged == if mode == Purge then |old(c.docs)| - |c.docs| else 0
    ensures mode == Status ==> c.docs == old(c.docs)
    ensures mode == Purge ==> c.docs == Active(t, old(c.docs))
    ensures mode == Reembed ==> Migrates(t, old(c.docs), c.docs)
    ensures summary.Some? && mode != Status ==> forall id :: id in c.docs ==> c.docs[id].version == Some(t.version)
    ensures summary.Some? && t.version != "" && t.version != "unversioned" ==>
      && summary.value.stale == |set id | id in old(c.docs) && old(c.docs)[id].version != Some(t.version)|
      && summary.value.remaining == |set id | id in c.docs && c.docs[id].version != Some(t.version)|
  {
    hide Migrates, Counted, Stale, Active;
    var total, active := |c.docs|, |Counted(c.docs, t.version)|;
    var stale := total - active;
    var pageSize := PageSize(batchSize, configured);
    if t.version != "" && t.version != UNVERSIONED {
      CountsAgree(t, c.docs);
    }
    StaleMeans(t, c.docs);
    if mode == Status {
      return Some(Summary(total, active, stale, 0, 0, 0, stale));
    }
    if mode == Purge {
      var purged := PurgeStaleEntries(c, t, pageSize);
      PurgedHasNoStale(t, old(c.docs));
      StaleMeans(t, c.docs);
      return Some(Summary(total, active, stale, purged, 0, 0, Max(0, stale - purged)));
    }
    var reembedded, skipped, failed := ReembedStaleEntries(c, t, pageSize);
    if failed {
      return None;
    }
    StaleMeans(t, c.docs);
    summary := Some(Summary(total, active, stale, 0, reembedded, skipped, Max(0, stale - reembedded - skipped)));
  }

  lemma StaleMeans(t: Target, docs: Docs)
    ensures Stale(t, docs) == set id | id in docs && docs[id].version != Some(t.version)
    ensures Stale(t, docs) == {} <==> forall id :: id in docs ==> docs[id].version == Some(t.version)
  {
    if id :| id in docs && docs[id].version != Some(t.version) {
      assert id in Stale(t, docs);
    }
  }

  lemma PurgedHasNoStale(t: Target, docs: Docs)
    ensures Stale(t, Active(t, docs)) == {}
  {
  }
}
