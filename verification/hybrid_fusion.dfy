/** Reciprocal Rank Fusion and pin merging of services/hybrid_search.py: the two retrieval
    arms are fused by summed weight/(60 + rank), ties going to the key seen first, and the
    always-included tools are placed ahead of the ranked ones. */
module HybridFusion {
  import opened Wrappers

  /** `doc.get("server")`, `doc.get("name")`: either may be missing. */
  datatype Key = Key(server: Option<string>, name: Option<string>)

  /** One entry of `scoreDetails`. */
  datatype Detail = Detail(pipeline: string, rank: nat, weight: real, value: real)

  datatype Doc = Doc(key: Key, body: string, score: Option<real>, scoreDetails: Option<seq<Detail>>, pinned: bool)

  const VECTOR_PIPELINE := "vectorPipeline"
  const TEXT_PIPELINE := "fullTextPipeline"

  function KeysOf(docs: seq<Doc>): (keys: seq<Key>)
    ensures |keys| == |docs| && forall i :: 0 <= i < |docs| ==> keys[i] == docs[i].key
  {
    seq(|docs|, i requires 0 <= i < |docs| => docs[i].key)
  }

  /** What rank `rank` (counted from 1) of an arm is worth. */
  function Contribution(weight: real, rank: nat): real {
    weight * (1.0 / (60 + rank) as real)
  }

  /** One rank of one arm: the key found there and what it contributes. */
  datatype Line = Line(key: Key, detail: Detail)

  function LineAt(key: Key, rank: nat, weight: real, pipeline: string): Line {
    Line(key, Detail(pipeline, rank, weight, Contribution(weight, rank)))
  }

  function Lines(arm: seq<Key>, weight: real, pipeline: string): (lines: seq<Line>)
    ensures |lines| == |arm|
    ensures forall i :: 0 <= i < |arm| ==> lines[i] == LineAt(arm[i], i + 1, weight, pipeline)
  {
    seq(|arm|, i requires 0 <= i < |arm| => LineAt(arm[i], i + 1, weight, pipeline))
  }

  /** What the lines add up to for a key. */
  function Total(lines: seq<Line>, key: Key): real {
    if lines == [] then 0.0
    else
      var last := lines[|lines| - 1];
      Total(lines[..|lines| - 1], key) + if last.key == key then last.detail.value else 0.0
  }

  function DetailsFor(lines: seq<Line>, key: Key): seq<Detail> {
    if lines == [] then []
    else
      var last := lines[|lines| - 1];
      DetailsFor(lines[..|lines| - 1], key) + if last.key == key then [last.detail] else []
  }

  /** The distinct keys of a list, in the order they are first seen. */
  function FirstSeen(keys: seq<Key>): seq<Key> {
    if keys == [] then []
    else
      var before := FirstSeen(keys[..|keys| - 1]);
      if keys[|keys| - 1] in keys[..|keys| - 1] then before else before + [keys[|keys| - 1]]
  }

  /** Where a key is first seen, or the length. */
  function FirstIndex(keys: seq<Key>, key: Key): (i: nat)
    ensures i <= |keys| && (i < |keys| ==> keys[i] == key)
    ensures forall j :: 0 <= j < i ==> keys[j] != key
    ensures key in keys <==> i < |keys|
  {
    if keys == [] then 0 else if keys[0] == key then 0 else 1 + FirstIndex(keys[1..], key)
  }

  datatype Arms = Arms(vector: seq<Key>, text: seq<Key>, vectorWeight: real, textWeight: real)

  function AllLines(arms: Arms): seq<Line> {
    Lines(arms.vector, arms.vectorWeight, VECTOR_PIPELINE) + Lines(arms.text, arms.textWeight, TEXT_PIPELINE)
  }

  function Score(arms: Arms, key: Key): real {
    Total(AllLines(arms), key)
  }

  /** Python's `sorted(..., reverse=True)` keeps equal items in their order: a new item goes
      behind everything that scores at least as much. */
  function Insert(sorted: seq<Key>, key: Key, scores: map<Key, real>): seq<Key>
    requires key in scores && forall k :: k in sorted ==> k in scores
  {
    if sorted == [] || scores[sorted[|sorted| - 1]] >= scores[key] then sorted + [key]
    else Insert(sorted[..|sorted| - 1], key, scores) + [sorted[|sorted| - 1]]
  }

  function SortDescending(keys: seq<Key>, scores: map<Key, real>): (sorted: seq<Key>)
    requires forall k :: k in keys ==> k in scores
    ensures |sorted| == |keys| && forall k :: k in sorted <==> k in keys
  {
    if keys == [] then []
    else
      var rest := SortDescending(keys[..|keys| - 1], scores);
      InsertMembers(rest, keys[|keys| - 1], scores);
      assert keys == keys[..|keys| - 1] + [keys[|keys| - 1]];
      Insert(rest, keys[|keys| - 1], scores)
  }

  lemma {:induction false} InsertMembers(sorted: seq<Key>, key: Key, scores: map<Key, real>)
    requires key in scores && forall k :: k in sorted ==> k in scores
    ensures |Insert(sorted, key, scores)| == |sorted| + 1
    ensures forall k :: k in Insert(sorted, key, scores) <==> k == key || k in sorted
  {
    if sorted != [] && scores[sorted[|sorted| - 1]] < scores[key] {
      InsertMembers(sorted[..|sorted| - 1], key, scores);
      assert sorted == sorted[..|sorted| - 1] + [sorted[|sorted| - 1]];
    }
  }

  /** The slice `[:limit]`: a negative limit drops items from the end. */
  function Cut<T>(xs: seq<T>, limit: int): seq<T> {
    if limit >= |xs| then xs
    else if limit >= 0 then xs[..limit]
    else if |xs| + limit >= 0 then xs[..|xs| + limit] else []
  }

  function ScoreTable(arms: Arms): map<Key, real> {
    map key | key in arms.vector + arms.text :: Score(arms, key)
  }

  /** The fused ranking, before the cut. */
  function Ranking(arms: Arms): seq<Key> {
    FirstSeenMembers(arms.vector + arms.text);
    SortDescending(FirstSeen(arms.vector + arms.text), ScoreTable(arms))
  }

  lemma {:induction false} FirstSeenMembers(keys: seq<Key>)
    ensures forall k :: k in FirstSeen(keys) <==> k in keys
  {
    if keys != [] {
      FirstSeenMembers(keys[..|keys| - 1]);
      assert keys == keys[..|keys| - 1] + [keys[|keys| - 1]];
    }
  }

  function FirstDoc(docs: seq<Doc>, key: Key): Doc
    requires key in KeysOf(docs)
  {
    docs[FirstIndex(KeysOf(docs), key)]
  }

  // ---- The fusion loop -----------------------------------------------------------------

  /** The dictionaries of `_fuse_rrf`; `order` is the insertion order of `scores`. */
  datatype Tables = Tables(order: seq<Key>, byKey: map<Key, Doc>, scores: map<Key, real>, details: map<Key, seq<Detail>>)

  /** The first document of every key seen, and the order the keys came in. */
  ghost predicate Indexed(order: seq<Key>, byKey: map<Key, Doc>, seen: seq<Doc>) {
    && order == FirstSeen(KeysOf(seen))
    && (forall k :: k in byKey <==> k in KeysOf(seen))
    && (forall k :: k in byKey ==> byKey[k] == FirstDoc(seen, k))
  }

  function LineKeys(lines: seq<Line>): (keys: seq<Key>)
    ensures |keys| == |lines| && forall i :: 0 <= i < |lines| ==> keys[i] == lines[i].key
  {
    seq(|lines|, i requires 0 <= i < |lines| => lines[i].key)
  }

  ghost predicate ScoresTallied(scores: map<Key, real>, lines: seq<Line>) {
    && (forall k :: k in scores <==> k in LineKeys(lines))
    && (forall k :: k in scores ==> scores[k] == Total(lines, k))
  }

  ghost predicate DetailsTallied(details: map<Key, seq<Detail>>, lines: seq<Line>) {
    && (forall k :: k in details <==> k in LineKeys(lines))
    && (forall k :: k in details ==> details[k] == DetailsFor(lines, k))
  }

  /** The score, and the details if asked for, of every key the lines mention. */
  ghost predicate Tallied(scores: map<Key, real>, details: map<Key, seq<Detail>>, lines: seq<Line>, includeDetails: bool) {
    ScoresTallied(scores, lines) && (includeDetails ==> DetailsTallied(details, lines))
  }

  lemma FirstDocKept(seen: seq<Doc>, doc: Doc, key: Key)
    requires key in KeysOf(seen + [doc])
    ensures FirstDoc(seen + [doc], key) == if key in KeysOf(seen) then FirstDoc(seen, key) else doc
  {
    var i, j := FirstIndex(KeysOf(seen + [doc]), key), FirstIndex(KeysOf(seen), key);
    assert forall k :: 0 <= k < |seen| ==> KeysOf(seen + [doc])[k] == KeysOf(seen)[k];
    if key in KeysOf(seen) {
      assert i == j;
    } else {
      assert i == |seen|;
    }
  }

  lemma IndexDoc(order: seq<Key>, byKey: map<Key, Doc>, seen: seq<Doc>, doc: Doc)
    requires Indexed(order, byKey, seen)
    ensures if doc.key in byKey then Indexed(order, byKey, seen + [doc])
            else Indexed(order + [doc.key], byKey[doc.key := doc], seen + [doc])
  {
    var before, keys := KeysOf(seen), KeysOf(seen + [doc]);
    assert keys == before + [doc.key] && keys[..|seen|] == before;
    var order' := if doc.key in byKey then order else order + [doc.key];
    var byKey' := if doc.key in byKey then byKey else byKey[doc.key := doc];
    assert order' == FirstSeen(keys);
    forall k ensures k in byKey' <==> k in keys {
    }
    forall k | k in byKey' ensures byKey'[k] == FirstDoc(seen + [doc], k) {
      FirstDocKept(seen, doc, k);
    }
  }

  lemma UnseenTotal(lines: seq<Line>, key: Key)
    requires key !in LineKeys(lines)
    ensures Total(lines, key) == 0.0 && DetailsFor(lines, key) == []
  {
    if lines != [] {
      assert LineKeys(lines)[|lines| - 1] != key;
      assert LineKeys(lines[..|lines| - 1]) == LineKeys(lines)[..|lines| - 1];
      UnseenTotal(lines[..|lines| - 1], key);
    }
  }

  lemma LineAppended(lines: seq<Line>, line: Line)
    ensures forall k :: k in LineKeys(lines + [line]) <==> k in LineKeys(lines) || k == line.key
    ensures (lines + [line])[..|lines|] == lines
  {
    assert LineKeys(lines + [line]) == LineKeys(lines) + [line.key];
  }

  lemma TallyScore(scores: map<Key, real>, lines: seq<Line>, line: Line)
    requires ScoresTallied(scores, lines)
    ensures ScoresTallied(scores[line.key := (if line.key in scores then scores[line.key] else 0.0) + line.detail.value], lines + [line])
  {
    hide LineKeys;
    LineAppended(lines, line);
    if line.key !in LineKeys(lines) {
      UnseenTotal(lines, line.key);
    }
  }

  lemma TallyDetail(details: map<Key, seq<Detail>>, lines: seq<Line>, line: Line)
    requires DetailsTallied(details, lines)
    ensures DetailsTallied(details[line.key := (if line.key in details then details[line.key] else []) + [line.detail]], lines + [line])
  {
    hide LineKeys;
    LineAppended(lines, line);
    if line.key !in LineKeys(lines) {
      UnseenTotal(lines, line.key);
    }
  }

  lemma TallyLine(scores: map<Key, real>, details: map<Key, seq<Detail>>, lines: seq<Line>, line: Line, includeDetails: bool)
    requires Tallied(scores, details, lines, includeDetails)
    ensures Tallied(
              scores[line.key := (if line.key in scores then scores[line.key] else 0.0) + line.detail.value],
              if includeDetails then details[line.key := (if line.key in details then details[line.key] else []) + [line.detail]] else details,
              lines + [line], includeDetails)
  {
    hide ScoresTallied, DetailsTallied;
    TallyScore(scores, lines, line);
    if includeDetails {
      TallyDetail(details, lines, line);
    }
  }

  /** Either loop of `_fuse_rrf`, on the dictionaries filled so far. */
  method AddArm(t: Tables, docs: seq<Doc>, weight: real, pipeline: string, includeDetails: bool,
                ghost seen: seq<Doc>, ghost lines: seq<Line>) returns (r: Tables)
    requires Indexed(t.order, t.byKey, seen) && Tallied(t.scores, t.details, lines, includeDetails)
    ensures Indexed(r.order, r.byKey, seen + docs)
    ensures Tallied(r.scores, r.details, lines + Lines(KeysOf(docs), weight, pipeline), includeDetails)
  {
    hide Indexed, Tallied, Contribution;
    r := t;
    ghost var added := Lines(KeysOf(docs), weight, pipeline);
    assert seen + docs[..0] == seen && lines + added[..0] == lines;
    for i := 0 to |docs|
      invariant Indexed(r.order, r.byKey, seen + docs[..i])
      invariant Tallied(r.scores, r.details, lines + added[..i], includeDetails)
    {
      var key, contribution := docs[i].key, Contribution(weight, i + 1);
      IndexDoc(r.order, r.byKey, seen + docs[..i], docs[i]);
      TallyLine(r.scores, r.details, lines + added[..i], added[i], includeDetails);
      if key !in r.byKey {
        r := r.(byKey := r.byKey[key := docs[i]], order := r.order + [key]);
      }
      r := r.(scores := r.scores[key := (if key in r.scores then r.scores[key] else 0.0) + contribution]);
      if includeDetails {
        var detail := Detail(pipeline, i + 1, weight, contribution);
        r := r.(details := r.details[key := (if key in r.details then r.details[key] else []) + [detail]]);
      }
      assert seen + docs[..i + 1] == seen + docs[..i] + [docs[i]];
      assert lines + added[..i + 1] == lines + added[..i] + [added[i]];
    }
    assert docs[..|docs|] == docs && added[..|docs|] == added;
  }

  /** The document a fused result is made from. */
  ghost function FusedDoc(docs: seq<Doc>, arms: Arms, key: Key, includeDetails: bool): Doc
    requires key in KeysOf(docs)
  {
    var doc := FirstDoc(docs, key).(score := Some(Score(arms, key)));
    if includeDetails then doc.(scoreDetails := Some(DetailsFor(AllLines(arms), key))) else doc
  }

  lemma ScoresAreTable(scores: map<Key, real>, details: map<Key, seq<Detail>>, arms: Arms, includeDetails: bool)
    requires Tallied(scores, details, AllLines(arms), includeDetails)
    ensures scores == ScoreTable(arms)
  {
    assert LineKeys(AllLines(arms)) == arms.vector + arms.text;
  }

  lemma TablesGiveRanking(t: Tables, docs: seq<Doc>, arms: Arms, includeDetails: bool)
    requires Indexed(t.order, t.byKey, docs) && Tallied(t.scores, t.details, AllLines(arms), includeDetails)
    requires KeysOf(docs) == arms.vector + arms.text
    ensures forall k :: k in t.order ==> k in KeysOf(docs) && k in t.scores && k in t.byKey && (includeDetails ==> k in t.details)
    ensures SortDescending(t.order, t.scores) == Ranking(arms)
    ensures forall k :: k in t.order ==> FinishedDoc(t, k, includeDetails) == FusedDoc(docs, arms, k, includeDetails)
  {
    hide SortDescending, FirstDoc, FirstSeen;
    assert LineKeys(AllLines(arms)) == KeysOf(docs);
    FirstSeenMembers(KeysOf(docs));
    ScoresAreTable(t.scores, t.details, arms, includeDetails);
  }

  /** The last loop's document for a ranked key. */
  function FinishedDoc(t: Tables, key: Key, includeDetails: bool): Doc
    requires key in t.byKey && key in t.scores && (includeDetails ==> key in t.details)
  {
    var doc := t.byKey[key].(score := Some(t.scores[key]));
    if includeDetails then doc.(scoreDetails := Some(t.details[key])) else doc
  }

  method Collect(t: Tables, ordered: seq<Key>, includeDetails: bool) returns (fused: seq<Doc>)
    requires forall i :: 0 <= i < |ordered| ==>
               ordered[i] in t.byKey && ordered[i] in t.scores && (includeDetails ==> ordered[i] in t.details)
    ensures |fused| == |ordered|
    ensures forall i :: 0 <= i < |ordered| ==> fused[i] == FinishedDoc(t, ordered[i], includeDetails)
  {
    fused := [];
    for i := 0 to |ordered|
      invariant |fused| == i
      invariant forall j :: 0 <= j < i ==> fused[j] == FinishedDoc(t, ordered[j], includeDetails)
    {
      var key := ordered[i];
      var doc := t.byKey[key].(score := Some(t.scores[key]));
      if includeDetails {
        doc := doc.(scoreDetails := Some(t.details[key]));
      }
      fused := fused + [doc];
    }
  }

  method FuseRrf(vectorDocs: seq<Doc>, textDocs: seq<Doc>, vectorWeight: real, textWeight: real,
                 outputLimit: int, includeDetails: bool) returns (fused: seq<Doc>)
    ensures IsFusion(vectorDocs, textDocs, Arms(KeysOf(vectorDocs), KeysOf(textDocs), vectorWeight, textWeight), outputLimit, includeDetails, fused)
  {
    hide Indexed, Tallied, SortDescending, FirstSeen, FinishedDoc, FusedDoc, Ranking, Cut, Lines, KeysOf;
    ghost var arms := Arms(KeysOf(vectorDocs), KeysOf(textDocs), vectorWeight, textWeight);
    ghost var docs := vectorDocs + textDocs;
    var t := Tables([], map[], map[], map[]);
    NothingYet(includeDetails);
    var lines := Lines(arms.vector, vectorWeight, VECTOR_PIPELINE);
    assert [] + vectorDocs == vectorDocs && [] + lines == lines;
    t := AddArm(t, vectorDocs, vectorWeight, VECTOR_PIPELINE, includeDetails, [], []);
    t := AddArm(t, textDocs, textWeight, TEXT_PIPELINE, includeDetails, vectorDocs, Lines(arms.vector, vectorWeight, VECTOR_PIPELINE));
    KeysOfBoth(vectorDocs, textDocs);
    TablesGiveRanking(t, docs, arms, includeDetails);
    var ordered := Cut(SortDescending(t.order, t.scores), outputLimit);
    CutIsPrefix(SortDescending(t.order, t.scores), outputLimit);
    assert forall i :: 0 <= i < |ordered| ==> ordered[i] in t.order;
    fused := Collect(t, ordered, includeDetails);
  }

  lemma KeysOfBoth(a: seq<Doc>, b: seq<Doc>)
    ensures KeysOf(a + b) == KeysOf(a) + KeysOf(b)
  {
  }

  lemma NothingYet(includeDetails: bool)
    ensures Indexed([], map[], []) && Tallied(map[], map[], [], includeDetails)
  {
  }

  // ---- What the ranking means -------------------------------------------------------------

  function Seen(arms: Arms): seq<Key> {
    arms.vector + arms.text
  }

  /** `k` ranks ahead of `l`: a higher score, or the same score and seen earlier. */
  ghost predicate Beats(arms: Arms, k: Key, l: Key) {
    || Score(arms, k) > Score(arms, l)
    || (Score(arms, k) == Score(arms, l) && FirstIndex(Seen(arms), k) < FirstIndex(Seen(arms), l))
  }

  ghost predicate InOrder(arms: Arms, keys: seq<Key>) {
    forall i, j :: 0 <= i < j < |keys| ==> Beats(arms, keys[i], keys[j])
  }

  ghost predicate SeenInOrder(all: seq<Key>, keys: seq<Key>) {
    forall i, j :: 0 <= i < j < |keys| ==> FirstIndex(all, keys[i]) < FirstIndex(all, keys[j])
  }

  lemma FirstIndexOfPrefix(all: seq<Key>, n: nat, key: Key)
    requires n <= |all| && key in all[..n]
    ensures FirstIndex(all, key) == FirstIndex(all[..n], key) < n
  {
    var i, j := FirstIndex(all, key), FirstIndex(all[..n], key);
    assert all[..n][j] == all[j];
    assert i <= j;
    assert all[..n][i] == key;
  }

  lemma EarlyMeansIn(all: seq<Key>, n: nat, key: Key)
    requires n <= |all|
    ensures FirstIndex(all, key) < n ==> key in all[..n]
  {
    if FirstIndex(all, key) < n {
      assert all[..n][FirstIndex(all, key)] == key;
    }
  }

  lemma {:induction false} FirstSeenInOrder(all: seq<Key>, n: nat)
    requires n <= |all|
    ensures SeenInOrder(all, FirstSeen(all[..n]))
  {
    if n > 0 {
      FirstSeenInOrder(all, n - 1);
      var before := all[..n - 1];
      assert all[..n][..n - 1] == before;
      FirstSeenMembers(before);
      forall k | k in before ensures FirstIndex(all, k) < n - 1 {
        FirstIndexOfPrefix(all, n - 1, k);
      }
      if all[n - 1] !in before {
        EarlyMeansIn(all, n - 1, all[n - 1]);
      }
    }
  }

  lemma {:induction false} InsertInOrder(arms: Arms, sorted: seq<Key>, key: Key)
    requires InOrder(arms, sorted) && key in ScoreTable(arms) && forall k :: k in sorted ==> k in ScoreTable(arms)
    requires forall k :: k in sorted ==> FirstIndex(Seen(arms), k) < FirstIndex(Seen(arms), key)
    ensures InOrder(arms, Insert(sorted, key, ScoreTable(arms)))
  {
    var scores := ScoreTable(arms);
    if sorted != [] {
      var init, last := sorted[..|sorted| - 1], sorted[|sorted| - 1];
      hide ScoreTable;
      if scores[last] >= scores[key] {
        forall i | 0 <= i < |sorted| ensures Beats(arms, sorted[i], key) {
          assert i == |sorted| - 1 || Beats(arms, sorted[i], last);
        }
        hide Beats;
        InOrderAppended(arms, sorted, key);
      } else {
        InsertInOrder(arms, init, key);
        InsertMembers(init, key, scores);
        var inner := Insert(init, key, scores);
        forall i | 0 <= i < |inner| ensures Beats(arms, inner[i], last) {
          assert inner[i] == key || inner[i] in init;
        }
        hide Beats;
        InOrderAppended(arms, inner, last);
      }
    }
  }

  lemma InOrderAppended(arms: Arms, sorted: seq<Key>, last: Key)
    requires InOrder(arms, sorted) && forall i :: 0 <= i < |sorted| ==> Beats(arms, sorted[i], last)
    ensures InOrder(arms, sorted + [last])
  {
    hide Beats;
  }

  lemma {:induction false} SortInOrder(arms: Arms, keys: seq<Key>)
    requires SeenInOrder(Seen(arms), keys) && forall k :: k in keys ==> k in ScoreTable(arms)
    ensures InOrder(arms, SortDescending(keys, ScoreTable(arms)))
  {
    if keys != [] {
      var init, key := keys[..|keys| - 1], keys[|keys| - 1];
      SortInOrder(arms, init);
      var rest := SortDescending(init, ScoreTable(arms));
      forall k | k in rest ensures FirstIndex(Seen(arms), k) < FirstIndex(Seen(arms), key) {
        var i :| 0 <= i < |init| && init[i] == k;
        assert keys[i] == k;
      }
      InsertInOrder(arms, rest, key);
    }
  }

  /** The ranking lists exactly the keys of the arms, each once, best first: by score, and
      between equal scores the one seen first with the vector arm ahead of the text arm. */
  lemma RankingIsOrdered(arms: Arms)
    ensures InOrder(arms, Ranking(arms))
    ensures forall k :: k in Ranking(arms) <==> k in Seen(arms)
    ensures forall i, j :: 0 <= i < j < |Ranking(arms)| ==> Ranking(arms)[i] != Ranking(arms)[j]
  {
    FirstSeenMembers(Seen(arms));
    assert Seen(arms)[..|Seen(arms)|] == Seen(arms);
    FirstSeenInOrder(Seen(arms), |Seen(arms)|);
    SortInOrder(arms, FirstSeen(Seen(arms)));
  }

  lemma KeptPosition<T>(xs: seq<T>, limit: int, j: nat)
    requires j < |xs|
    ensures j < |Cut(xs, limit)| ==> xs[j] in Cut(xs, limit)
  {
    if j < |Cut(xs, limit)| {
      assert Cut(xs, limit)[j] == xs[j];
    }
  }

  /** A limit keeps the best keys: whatever is cut ranks behind everything kept. */
  lemma CutKeepsBest(arms: Arms, limit: int, kept: Key, lost: Key)
    requires kept in Cut(Ranking(arms), limit) && lost in Seen(arms) && lost !in Cut(Ranking(arms), limit)
    ensures Beats(arms, kept, lost) && Score(arms, kept) >= Score(arms, lost)
  {
    RankingIsOrdered(arms);
    var ranking := Ranking(arms);
    var i :| 0 <= i < |Cut(ranking, limit)| && Cut(ranking, limit)[i] == kept;
    var j :| 0 <= j < |ranking| && ranking[j] == lost;
    KeptPosition(ranking, limit, j);
  }

  // ---- Scores ----------------------------------------------------------------------------

  ghost predicate DistinctKeys(keys: seq<Key>) {
    forall i, j :: 0 <= i < j < |keys| ==> keys[i] != keys[j]
  }

  lemma {:induction false} TotalOfSum(xs: seq<Line>, ys: seq<Line>, key: Key)
    ensures Total(xs + ys, key) == Total(xs, key) + Total(ys, key)
  {
    if ys == [] {
      assert xs + ys == xs;
    } else {
      assert (xs + ys)[..|xs + ys| - 1] == xs + ys[..|ys| - 1];
      TotalOfSum(xs, ys[..|ys| - 1], key);
    }
  }

  /** In an arm that lists each key once, a key scores what its rank is worth. */
  ghost function RankScore(arm: seq<Key>, weight: real, key: Key): real {
    if key in arm then Contribution(weight, FirstIndex(arm, key) + 1) else 0.0
  }

  lemma {:induction false} TotalOfArm(arm: seq<Key>, weight: real, pipeline: string, key: Key, n: nat)
    requires DistinctKeys(arm) && n <= |arm|
    ensures Total(Lines(arm, weight, pipeline)[..n], key)
         == if FirstIndex(arm, key) < n then Contribution(weight, FirstIndex(arm, key) + 1) else 0.0
  {
    if n > 0 {
      var lines := Lines(arm, weight, pipeline);
      TotalOfArm(arm, weight, pipeline, key, n - 1);
      assert lines[..n][..n - 1] == lines[..n - 1] && lines[..n][n - 1] == lines[n - 1];
      assert arm[n - 1] == key ==> FirstIndex(arm, key) == n - 1;
    }
  }

  lemma TotalOfWholeArm(arm: seq<Key>, weight: real, pipeline: string, key: Key)
    requires DistinctKeys(arm)
    ensures Total(Lines(arm, weight, pipeline), key) == RankScore(arm, weight, key)
  {
    hide Contribution, Total;
    var lines := Lines(arm, weight, pipeline);
    TotalOfArm(arm, weight, pipeline, key, |arm|);
    assert lines[..|arm|] == lines;
  }

  /** The fusion formula: rank r of an arm, counted from 1, is worth weight/(60 + r). */
  lemma ScoreClosedForm(arms: Arms, key: Key)
    requires DistinctKeys(arms.vector) && DistinctKeys(arms.text)
    ensures Score(arms, key)
         == (if key in arms.vector then arms.vectorWeight * (1.0 / (61 + FirstIndex(arms.vector, key)) as real) else 0.0)
            + (if key in arms.text then arms.textWeight * (1.0 / (61 + FirstIndex(arms.text, key)) as real) else 0.0)
  {
    hide Score, RankScore, FirstIndex;
    ScoreByRank(arms, key);
    RankScoreIs(arms.vector, arms.vectorWeight, key);
    RankScoreIs(arms.text, arms.textWeight, key);
  }

  lemma RankScoreIs(arm: seq<Key>, weight: real, key: Key)
    ensures RankScore(arm, weight, key) == if key in arm then weight * (1.0 / (61 + FirstIndex(arm, key)) as real) else 0.0
  {
    hide Contribution, FirstIndex;
    ContributionAt(weight, FirstIndex(arm, key));
  }

  lemma ContributionAt(weight: real, i: nat)
    ensures Contribution(weight, i + 1) == weight * (1.0 / (61 + i) as real)
  {
  }

  lemma ScoreByRank(arms: Arms, key: Key)
    requires DistinctKeys(arms.vector) && DistinctKeys(arms.text)
    ensures Score(arms, key)
         == RankScore(arms.vector, arms.vectorWeight, key) + RankScore(arms.text, arms.textWeight, key)
  {
    hide Total, Lines, RankScore;
    var v, t := Lines(arms.vector, arms.vectorWeight, VECTOR_PIPELINE), Lines(arms.text, arms.textWeight, TEXT_PIPELINE);
    TotalOfSum(v, t, key);
    TotalOfWholeArm(arms.vector, arms.vectorWeight, VECTOR_PIPELINE, key);
    TotalOfWholeArm(arms.text, arms.textWeight, TEXT_PIPELINE, key);
  }

  lemma {:induction false} DetailsOfSum(xs: seq<Line>, ys: seq<Line>, key: Key)
    ensures DetailsFor(xs + ys, key) == DetailsFor(xs, key) + DetailsFor(ys, key)
  {
    if ys == [] {
      assert xs + ys == xs;
    } else {
      assert (xs + ys)[..|xs + ys| - 1] == xs + ys[..|ys| - 1];
      DetailsOfSum(xs, ys[..|ys| - 1], key);
    }
  }

  lemma {:induction false} DetailsOfArm(arm: seq<Key>, weight: real, pipeline: string, key: Key, n: nat)
    requires DistinctKeys(arm) && n <= |arm|
    ensures DetailsFor(Lines(arm, weight, pipeline)[..n], key)
         == if FirstIndex(arm, key) < n then [LineAt(key, FirstIndex(arm, key) + 1, weight, pipeline).detail] else []
  {
    if n > 0 {
      var lines := Lines(arm, weight, pipeline);
      DetailsOfArm(arm, weight, pipeline, key, n - 1);
      assert lines[..n][..n - 1] == lines[..n - 1] && lines[..n][n - 1] == lines[n - 1];
      assert arm[n - 1] == key ==> FirstIndex(arm, key) == n - 1;
    }
  }

  lemma DetailsOfWholeArm(arm: seq<Key>, weight: real, pipeline: string, key: Key)
    requires DistinctKeys(arm)
    ensures DetailsFor(Lines(arm, weight, pipeline), key)
         == if key in arm then [LineAt(key, FirstIndex(arm, key) + 1, weight, pipeline).detail] else []
  {
    hide DetailsFor;
    var lines := Lines(arm, weight, pipeline);
    DetailsOfArm(arm, weight, pipeline, key, |arm|);
    assert lines[..|arm|] == lines;
  }

  /** What is reported for one arm: pipeline, rank, weight and what they contribute. */
  lemma DetailsClosedForm(arms: Arms, key: Key)
    requires DistinctKeys(arms.vector) && DistinctKeys(arms.text)
    ensures |DetailsFor(AllLines(arms), key)| == (if key in arms.vector then 1 else 0) + (if key in arms.text then 1 else 0)
    ensures key in arms.vector ==>
              DetailsFor(AllLines(arms), key)[0] == Detail("vectorPipeline", FirstIndex(arms.vector, key) + 1, arms.vectorWeight,
                                                           arms.vectorWeight * (1.0 / (61 + FirstIndex(arms.vector, key)) as real))
    ensures key in arms.text ==>
              DetailsFor(AllLines(arms), key)[if key in arms.vector then 1 else 0] ==
                Detail("fullTextPipeline", FirstIndex(arms.text, key) + 1, arms.textWeight,
                       arms.textWeight * (1.0 / (61 + FirstIndex(arms.text, key)) as real))
  {
    hide DetailsFor, Lines, FirstIndex, Contribution;
    DetailsOfSum(Lines(arms.vector, arms.vectorWeight, VECTOR_PIPELINE), Lines(arms.text, arms.textWeight, TEXT_PIPELINE), key);
    DetailsOfWholeArm(arms.vector, arms.vectorWeight, VECTOR_PIPELINE, key);
    DetailsOfWholeArm(arms.text, arms.textWeight, TEXT_PIPELINE, key);
    ContributionAt(arms.vectorWeight, FirstIndex(arms.vector, key));
    ContributionAt(arms.textWeight, FirstIndex(arms.text, key));
  }

  /** The slice `[:limit]`: a negative limit drops that many from the end. */
  lemma CutIsPrefix<T>(xs: seq<T>, limit: int)
    ensures Cut(xs, limit) <= xs
    ensures limit >= 0 ==> |Cut(xs, limit)| == if limit < |xs| then limit else |xs|
    ensures limit < 0 ==> |Cut(xs, limit)| == if |xs| + limit > 0 then |xs| + limit else 0
  {
  }

  /** `fused` is the result of `FuseRrf` for these arguments. */
  ghost predicate IsFusion(vectorDocs: seq<Doc>, textDocs: seq<Doc>, arms: Arms, limit: int, includeDetails: bool, fused: seq<Doc>) {
    var ranked := Cut(Ranking(arms), limit);
    && |fused| == |ranked|
    && forall i :: 0 <= i < |fused| ==>
         ranked[i] in KeysOf(vectorDocs + textDocs)
         && fused[i] == FusedDoc(vectorDocs + textDocs, arms, ranked[i], includeDetails)
  }

  /** `doc` is the first of its key, but for the two fields that fusion sets. */
  ghost predicate FromFirst(docs: seq<Doc>, doc: Doc, n: nat) {
    && n < |docs| && docs[n].key == doc.key && (forall m :: 0 <= m < n ==> docs[m].key != doc.key)
    && doc == docs[n].(score := doc.score, scoreDetails := doc.scoreDetails)
  }

  lemma FusedFrom(docs: seq<Doc>, arms: Arms, key: Key, includeDetails: bool) returns (n: nat)
    requires key in KeysOf(docs)
    ensures FromFirst(docs, FusedDoc(docs, arms, key, includeDetails), n)
    ensures !includeDetails ==> FusedDoc(docs, arms, key, includeDetails).scoreDetails == docs[n].scoreDetails
    ensures includeDetails ==> FusedDoc(docs, arms, key, includeDetails).scoreDetails == Some(DetailsFor(AllLines(arms), key))
    ensures FusedDoc(docs, arms, key, includeDetails).score == Some(Score(arms, key))
  {
    hide Score, DetailsFor, FirstIndex;
    n := FirstIndex(KeysOf(docs), key);
    assert forall m :: 0 <= m < |docs| ==> KeysOf(docs)[m] == docs[m].key;
  }

  /** One fused result in full: its document, its score and its details. */
  lemma FusedInFull(vectorDocs: seq<Doc>, textDocs: seq<Doc>, vectorWeight: real, textWeight: real,
                    limit: int, includeDetails: bool, fused: seq<Doc>, i: nat) returns (n: nat)
    requires IsFusion(vectorDocs, textDocs, Arms(KeysOf(vectorDocs), KeysOf(textDocs), vectorWeight, textWeight), limit, includeDetails, fused)
    requires i < |fused| && DistinctKeys(KeysOf(vectorDocs)) && DistinctKeys(KeysOf(textDocs))
    ensures FromFirst(vectorDocs + textDocs, fused[i], n)
    ensures fused[i].score == Some(
              (if fused[i].key in KeysOf(vectorDocs) then vectorWeight * (1.0 / (61 + FirstIndex(KeysOf(vectorDocs), fused[i].key)) as real) else 0.0)
              + (if fused[i].key in KeysOf(textDocs) then textWeight * (1.0 / (61 + FirstIndex(KeysOf(textDocs), fused[i].key)) as real) else 0.0))
    ensures !includeDetails ==> fused[i].scoreDetails == (vectorDocs + textDocs)[n].scoreDetails
    ensures includeDetails ==>
              fused[i].scoreDetails == Some(DetailsFor(AllLines(Arms(KeysOf(vectorDocs), KeysOf(textDocs), vectorWeight, textWeight)), fused[i].key))
  {
    hide Score, DetailsFor, FirstIndex, Ranking, Cut, FirstDoc, FusedDoc, DistinctKeys, AllLines;
    var arms := Arms(KeysOf(vectorDocs), KeysOf(textDocs), vectorWeight, textWeight);
    var key := Cut(Ranking(arms), limit)[i];
    n := FusedFrom(vectorDocs + textDocs, arms, key, includeDetails);
    assert fused[i].key == key by {
      KeyKept(vectorDocs + textDocs, arms, key, includeDetails);
    }
    assert fused[i].score == Some(Score(arms, fused[i].key));
    ScoreClosedForm(arms, fused[i].key);
    assert arms.vector == KeysOf(vectorDocs) && arms.text == KeysOf(textDocs);
    assert arms.vectorWeight == vectorWeight && arms.textWeight == textWeight;
    assert Score(arms, fused[i].key)
        == (if fused[i].key in KeysOf(vectorDocs) then vectorWeight * (1.0 / (61 + FirstIndex(KeysOf(vectorDocs), fused[i].key)) as real) else 0.0)
           + (if fused[i].key in KeysOf(textDocs) then textWeight * (1.0 / (61 + FirstIndex(KeysOf(textDocs), fused[i].key)) as real) else 0.0);
  }

  lemma KeyKept(docs: seq<Doc>, arms: Arms, key: Key, includeDetails: bool)
    requires key in KeysOf(docs)
    ensures FusedDoc(docs, arms, key, includeDetails).key == key
  {
  }

  /** The fused list in full: each key of either arm at most once, best score first, ties by
      who was seen first with the vector arm ahead, as many as the limit allows. */
  lemma FusedOrder(vectorDocs: seq<Doc>, textDocs: seq<Doc>, arms: Arms, limit: nat, includeDetails: bool, fused: seq<Doc>)
    requires arms.vector == KeysOf(vectorDocs) && arms.text == KeysOf(textDocs)
    requires IsFusion(vectorDocs, textDocs, arms, limit, includeDetails, fused)
    ensures |fused| == if limit < |Members(arms.vector + arms.text)| then limit else |Members(arms.vector + arms.text)|
    ensures forall i, j :: 0 <= i < j < |fused| ==> fused[i].key != fused[j].key && fused[i].score.Some? && fused[j].score.Some?
    ensures forall i, j :: 0 <= i < j < |fused| && fused[i].score.Some? && fused[j].score.Some? ==>
              fused[i].score.value >= fused[j].score.value
              && (fused[i].score.value == fused[j].score.value ==>
                    FirstIndex(arms.vector + arms.text, fused[i].key) < FirstIndex(arms.vector + arms.text, fused[j].key))
    ensures forall i, key :: 0 <= i < |fused| && fused[i].score.Some? && key in arms.vector + arms.text && (forall j :: 0 <= j < |fused| ==> fused[j].key != key) ==>
              Score(arms, key) <= fused[i].score.value
  {
    var ranking := Ranking(arms);
    RankingIsOrdered(arms);
    CutIsPrefix(ranking, limit);
    RankingSize(arms);
    hide Ranking, Cut, Score;
    assert forall i :: 0 <= i < |fused| ==> fused[i].key == ranking[i] && fused[i].score == Some(Score(arms, ranking[i]));
    forall i, key | 0 <= i < |fused| && key in arms.vector + arms.text && (forall j :: 0 <= j < |fused| ==> fused[j].key != key)
      ensures Score(arms, key) <= Score(arms, ranking[i])
    {
      assert key in Seen(arms) && key in ranking;
      var k :| 0 <= k < |ranking| && ranking[k] == key;
      assert forall j :: 0 <= j < |fused| ==> ranking[j] == fused[j].key != key;
      assert Beats(arms, ranking[i], ranking[k]);
    }
  }

  lemma RankingSize(arms: Arms)
    ensures |Ranking(arms)| == |Members(arms.vector + arms.text)|
  {
    DistinctCount(arms.vector + arms.text);
    FirstSeenMembers(arms.vector + arms.text);
  }

  function SumOf(details: seq<Detail>): real {
    if details == [] then 0.0 else SumOf(details[..|details| - 1]) + details[|details| - 1].value
  }

  /** The reported score is the sum of the reported details. */
  lemma {:induction false} DetailsExplainScore(lines: seq<Line>, key: Key)
    ensures SumOf(DetailsFor(lines, key)) == Total(lines, key)
  {
    if lines != [] {
      DetailsExplainScore(lines[..|lines| - 1], key);
      var before := DetailsFor(lines[..|lines| - 1], key);
      var detail := lines[|lines| - 1].detail;
      assert (before + [detail])[..|before|] == before;
      assert before + [] == before;
    }
  }

  // ---- Monotonicity ------------------------------------------------------------------------

  /** The arm with the document at `i` moved one place up. */
  function MovedUp(arm: seq<Key>, i: nat): seq<Key>
    requires 0 < i < |arm|
  {
    arm[i - 1 := arm[i]][i := arm[i - 1]]
  }

  lemma MovedUpIndex(arm: seq<Key>, i: nat, key: Key)
    requires 0 < i < |arm| && DistinctKeys(arm)
    ensures DistinctKeys(MovedUp(arm, i)) && (key in MovedUp(arm, i) <==> key in arm)
    ensures FirstIndex(MovedUp(arm, i), key)
         == if key == arm[i] then i - 1 else if key == arm[i - 1] then i else FirstIndex(arm, key)
  {
    MovedUpDistinct(arm, i);
    var moved := MovedUp(arm, i);
    assert forall g :: 0 <= g < |arm| ==> moved[g] == arm[Swapped(i, g)];
    hide MovedUp;
    if key in arm {
      var g := Swapped(i, FirstIndex(arm, key));
      assert moved[g] == key;
      OnlyIndex(moved, key, g);
      OnlyIndex(arm, key, FirstIndex(arm, key));
    }
  }

  lemma MovedUpDistinct(arm: seq<Key>, i: nat)
    requires 0 < i < |arm| && DistinctKeys(arm)
    ensures DistinctKeys(MovedUp(arm, i)) && |MovedUp(arm, i)| == |arm|
    ensures forall key :: key in MovedUp(arm, i) <==> key in arm
  {
    var moved := MovedUp(arm, i);
    forall g, h | 0 <= g < h < |moved|
      ensures moved[g] != moved[h]
    {
      assert moved[g] == arm[Swapped(i, g)] && moved[h] == arm[Swapped(i, h)];
    }
    assert forall g :: 0 <= g < |arm| ==> moved[g] == arm[Swapped(i, g)] && arm[g] == moved[Swapped(i, g)];
  }

  lemma OnlyIndex(arm: seq<Key>, key: Key, g: nat)
    requires DistinctKeys(arm) && g < |arm| && arm[g] == key
    ensures FirstIndex(arm, key) == g
  {
  }

  function Swapped(i: nat, g: nat): nat
    requires 0 < i
  {
    if g == i then i - 1 else if g == i - 1 then i else g
  }

  lemma BetterRankWorthMore(weight: real, rank: nat)
    requires weight >= 0.0
    ensures Contribution(weight, rank) >= Contribution(weight, rank + 1)
  {
    var a, b := (60 + rank) as real, (61 + rank) as real;
    assert 1.0 / a - 1.0 / b == 1.0 / (a * b) by {
      assert (1.0 / a - 1.0 / b) * (a * b) == b - a == 1.0;
    }
    assert 1.0 / a >= 1.0 / b;
    assert weight * (1.0 / a) >= weight * (1.0 / b);
  }

  lemma MovedUpScore(arm: seq<Key>, weight: real, i: nat, key: Key)
    requires 0 < i < |arm| && DistinctKeys(arm) && weight >= 0.0
    ensures key == arm[i] ==> RankScore(MovedUp(arm, i), weight, key) >= RankScore(arm, weight, key)
    ensures key == arm[i - 1] ==> RankScore(MovedUp(arm, i), weight, key) <= RankScore(arm, weight, key)
    ensures key != arm[i] && key != arm[i - 1] ==> RankScore(MovedUp(arm, i), weight, key) == RankScore(arm, weight, key)
  {
    hide Contribution;
    MovedUpIndex(arm, i, key);
    BetterRankWorthMore(weight, i);
    assert key == arm[i] ==> FirstIndex(arm, key) == i;
    assert key == arm[i - 1] ==> FirstIndex(arm, key) == i - 1;
  }

  /** `after` is `before` with one document moved one place up in one arm. */
  ghost predicate Promoted(before: Arms, after: Arms, d: Key) {
    && DistinctKeys(before.vector) && DistinctKeys(before.text)
    && before.vectorWeight >= 0.0 && before.textWeight >= 0.0
    && ((exists i :: 0 < i < |before.vector| && before.vector[i] == d && after == before.(vector := MovedUp(before.vector, i)))
        || (exists i :: 0 < i < |before.text| && before.text[i] == d && after == before.(text := MovedUp(before.text, i))))
  }

  lemma PromotedScores(before: Arms, after: Arms, d: Key, key: Key)
    requires Promoted(before, after, d)
    ensures key == d ==> Score(after, key) >= Score(before, key)
    ensures key != d ==> Score(after, key) <= Score(before, key)
  {
    hide RankScore, Score;
    if i :| 0 < i < |before.vector| && before.vector[i] == d && after == before.(vector := MovedUp(before.vector, i)) {
      MovedUpIndex(before.vector, i, d);
      MovedUpScore(before.vector, before.vectorWeight, i, key);
    } else {
      var i :| 0 < i < |before.text| && before.text[i] == d && after == before.(text := MovedUp(before.text, i));
      MovedUpIndex(before.text, i, d);
      MovedUpScore(before.text, before.textWeight, i, key);
    }
    ScoreByRank(before, key);
    ScoreByRank(after, key);
  }

  lemma FirstIndexOfSum(xs: seq<Key>, ys: seq<Key>, key: Key)
    ensures FirstIndex(xs + ys, key) == if key in xs then FirstIndex(xs, key) else |xs| + FirstIndex(ys, key)
  {
    var f := if key in xs then FirstIndex(xs, key) else |xs| + FirstIndex(ys, key);
    var g := FirstIndex(xs + ys, key);
    assert f < |xs + ys| ==> (xs + ys)[f] == key;
    assert g < |xs + ys| ==> (xs + ys)[g] == if g < |xs| then xs[g] else ys[g - |xs|];
  }

  /** The tie rule agrees: what is seen ahead of the promoted document afterwards was before. */
  lemma PromotedSeen(before: Arms, after: Arms, d: Key, key: Key)
    requires Promoted(before, after, d)
    ensures FirstIndex(Seen(after), key) < FirstIndex(Seen(after), d) ==> FirstIndex(Seen(before), key) < FirstIndex(Seen(before), d)
    ensures key in Seen(after) <==> key in Seen(before)
  {
    FirstIndexOfSum(before.vector, before.text, key);
    FirstIndexOfSum(before.vector, before.text, d);
    FirstIndexOfSum(after.vector, after.text, key);
    FirstIndexOfSum(after.vector, after.text, d);
    if i :| 0 < i < |before.vector| && before.vector[i] == d && after == before.(vector := MovedUp(before.vector, i)) {
      MovedUpIndex(before.vector, i, d);
      MovedUpIndex(before.vector, i, key);
    } else {
      var i :| 0 < i < |before.text| && before.text[i] == d && after == before.(text := MovedUp(before.text, i));
      MovedUpIndex(before.text, i, d);
      MovedUpIndex(before.text, i, key);
    }
  }

  /** The keys ahead of one in the ranking. */
  ghost function Ahead(arms: Arms, d: Key): set<Key> {
    set k | k in Seen(arms) && Beats(arms, k, d)
  }

  lemma RankCountsAhead(arms: Arms, d: Key)
    requires d in Seen(arms)
    ensures FirstIndex(Ranking(arms), d) == |Ahead(arms, d)|
  {
    RankingIsOrdered(arms);
    var ranking := Ranking(arms);
    var n := FirstIndex(ranking, d);
    var front := set j | 0 <= j < n :: ranking[j];
    forall k | k in Ahead(arms, d) ensures k in front {
      var j :| 0 <= j < |ranking| && ranking[j] == k;
      AheadMeansEarlier(arms, ranking, j, n);
    }
    assert front == Ahead(arms, d);
    PrefixSize(ranking, n);
  }

  lemma AheadMeansEarlier(arms: Arms, ranking: seq<Key>, j: nat, n: nat)
    requires InOrder(arms, ranking) && j < |ranking| && n < |ranking| && Beats(arms, ranking[j], ranking[n])
    ensures j < n
  {
  }

  lemma {:induction false} PrefixSize(keys: seq<Key>, n: nat)
    requires DistinctKeys(keys) && n <= |keys|
    ensures |set j | 0 <= j < n :: keys[j]| == n
  {
    if n > 0 {
      PrefixSize(keys, n - 1);
      assert (set j | 0 <= j < n :: keys[j]) == (set j | 0 <= j < n - 1 :: keys[j]) + {keys[n - 1]};
    }
  }

  lemma AheadShrinks(before: Arms, after: Arms, d: Key)
    requires Promoted(before, after, d)
    ensures Ahead(after, d) <= Ahead(before, d)
  {
    hide Score, FirstIndex, Promoted;
    PromotedScores(before, after, d, d);
    forall k | k in Ahead(after, d) ensures k in Ahead(before, d) {
      PromotedSeen(before, after, d, k);
      PromotedScores(before, after, d, k);
    }
  }

  /** Monotonicity: moving a document one place up in either arm never lowers its place in
      the fused ranking, ties included; so what made the cut still makes it. */
  lemma PromotionNeverLowers(before: Arms, after: Arms, d: Key, limit: nat)
    requires Promoted(before, after, d)
    ensures FirstIndex(Ranking(after), d) <= FirstIndex(Ranking(before), d)
    ensures d in Cut(Ranking(before), limit) ==> d in Cut(Ranking(after), limit)
  {
    hide Promoted, Ranking, Score, Seen, FirstIndex, Cut, Ahead;
    PromotedIsSeen(before, after, d);
    PromotedSeen(before, after, d, d);
    AheadShrinks(before, after, d);
    RankCountsAhead(before, d);
    RankCountsAhead(after, d);
    SubsetSize(Ahead(after, d), Ahead(before, d));
    RankingIsOrdered(after);
    CutByIndex(Ranking(before), d, limit);
    CutByIndex(Ranking(after), d, limit);
  }

  lemma PromotedIsSeen(before: Arms, after: Arms, d: Key)
    requires Promoted(before, after, d)
    ensures d in Seen(before)
  {
  }

  lemma CutByIndex(keys: seq<Key>, d: Key, limit: nat)
    ensures d in Cut(keys, limit) <==> FirstIndex(keys, d) < limit && d in keys
  {
    var i := FirstIndex(keys, d);
    if i < |keys| && i < limit {
      assert Cut(keys, limit)[i] == d;
    }
  }

  lemma SubsetSize<T>(a: set<T>, b: set<T>)
    requires a <= b
    ensures |a| <= |b|
  {
    assert b == a + (b - a);
  }

  // ---- Pinned tools -----------------------------------------------------------------------

  lemma {:induction false} FirstSeenGrows(xs: seq<Key>, n: nat)
    requires n <= |xs|
    ensures FirstSeen(xs[..n]) <= FirstSeen(xs)
    decreases |xs|
  {
    if n < |xs| {
      var init := xs[..|xs| - 1];
      FirstSeenGrows(init, n);
      assert init[..n] == xs[..n];
    } else {
      assert xs[..n] == xs;
    }
  }

  /** How many results `_merge_pinned` returns: all pinned tools, and ranked ones up to the limit. */
  function Seats(pinned: seq<Key>, ranked: seq<Key>, limit: int): (n: nat)
    ensures n <= |FirstSeen(pinned + ranked)|
  {
    FirstSeenGrows(pinned + ranked, |pinned|);
    assert (pinned + ranked)[..|pinned|] == pinned;
    var p, total := |FirstSeen(pinned)|, |FirstSeen(pinned + ranked)|;
    if limit <= p then p else if limit <= total then limit else total
  }

  function Members(xs: seq<Key>): set<Key> {
    set k | k in xs
  }

  lemma {:induction false} DistinctCount(xs: seq<Key>)
    ensures |FirstSeen(xs)| == |Members(xs)|
  {
    if xs == [] {
      assert Members(xs) == {};
    } else {
      var init, last := xs[..|xs| - 1], xs[|xs| - 1];
      DistinctCount(init);
      assert xs == init + [last];
      assert Members(xs) == Members(init) + {last};
      assert last in Members(init) <==> last in init;
    }
  }

  /** In numbers of distinct tools: the pinned ones, or the limit if that is more, but no
      more than there are. */
  lemma SeatsClosedForm(pinned: seq<Key>, ranked: seq<Key>, limit: int)
    ensures var p, total := |Members(pinned)|, |Members(pinned + ranked)|;
            var filled := if limit < total then limit else total;
            Seats(pinned, ranked, limit) == if p > filled then p else filled
  {
    DistinctCount(pinned);
    DistinctCount(pinned + ranked);
    FirstSeenGrows(pinned + ranked, |pinned|);
    assert (pinned + ranked)[..|pinned|] == pinned;
  }

  /** The result for a key: its first document, tagged when it is a pinned one. */
  ghost function MergedDoc(pinned: seq<Doc>, ranked: seq<Doc>, key: Key): Doc
    requires key in KeysOf(pinned + ranked)
  {
    var doc := FirstDoc(pinned + ranked, key);
    if key in KeysOf(pinned) then doc.(pinned := true) else doc
  }

  /** `merged` holds the results for the first `|merged|` distinct keys. */
  ghost predicate MergedSoFar(merged: seq<Doc>, pinned: seq<Doc>, ranked: seq<Doc>) {
    var order := FirstSeen(KeysOf(pinned + ranked));
    && |merged| <= |order|
    && forall i :: 0 <= i < |merged| ==>
         order[i] in KeysOf(pinned + ranked) && merged[i] == MergedDoc(pinned, ranked, order[i])
  }

  /** The next document seen for the first time takes the next place. */
  lemma NextDoc(merged: seq<Doc>, pinned: seq<Doc>, ranked: seq<Doc>, n: nat)
    requires n < |pinned + ranked| && MergedSoFar(merged, pinned, ranked)
    requires |merged| == |FirstSeen(KeysOf((pinned + ranked)[..n]))|
    ensures var doc := (pinned + ranked)[n];
            if doc.key in KeysOf((pinned + ranked)[..n])
            then |merged| == |FirstSeen(KeysOf((pinned + ranked)[..n + 1]))|
            else |merged| + 1 == |FirstSeen(KeysOf((pinned + ranked)[..n + 1]))|
                 && MergedSoFar(merged + [if n < |pinned| then doc.(pinned := true) else doc], pinned, ranked)
  {
    hide FirstSeen, MergedSoFar, MergedDoc;
    var all := pinned + ranked;
    var keys := KeysOf(all);
    assert KeysOf(all[..n]) == keys[..n] && KeysOf(all[..n + 1]) == keys[..n + 1];
    FirstSeenStep(keys, n);
    if all[n].key !in keys[..n] {
      NextDocIs(pinned, ranked, n);
      MergedAppended(merged, pinned, ranked, all[n].key);
    }
  }

  lemma FirstSeenStep(keys: seq<Key>, n: nat)
    requires n < |keys|
    ensures var before, now := FirstSeen(keys[..n]), FirstSeen(keys[..n + 1]);
            now == if keys[n] in keys[..n] then before else before + [keys[n]]
    ensures keys[n] !in keys[..n] ==> |FirstSeen(keys[..n])| < |FirstSeen(keys)|
    ensures keys[n] !in keys[..n] ==> FirstSeen(keys)[|FirstSeen(keys[..n])|] == keys[n]
  {
    assert keys[..n + 1][..n] == keys[..n];
    FirstSeenGrows(keys, n + 1);
  }

  lemma MergedAppended(merged: seq<Doc>, pinned: seq<Doc>, ranked: seq<Doc>, key: Key)
    requires MergedSoFar(merged, pinned, ranked) && key in KeysOf(pinned + ranked)
    requires var order := FirstSeen(KeysOf(pinned + ranked)); |merged| < |order| && order[|merged|] == key
    ensures MergedSoFar(merged + [MergedDoc(pinned, ranked, key)], pinned, ranked)
  {
    hide FirstSeen, MergedDoc;
  }

  lemma NextDocIs(pinned: seq<Doc>, ranked: seq<Doc>, n: nat)
    requires n < |pinned + ranked| && (pinned + ranked)[n].key !in KeysOf(pinned + ranked)[..n]
    ensures (pinned + ranked)[n].key in KeysOf(pinned + ranked)
    ensures var doc := (pinned + ranked)[n];
            MergedDoc(pinned, ranked, doc.key) == if n < |pinned| then doc.(pinned := true) else doc
  {
    var keys, key := KeysOf(pinned + ranked), (pinned + ranked)[n].key;
    assert keys[n] == key;
    EarlyMeansIn(keys, n, key);
    assert FirstIndex(keys, key) == n;
    PinnedByIndex(pinned, ranked, n);
  }

  lemma PinnedByIndex(pinned: seq<Doc>, ranked: seq<Doc>, n: nat)
    requires n < |pinned + ranked| && FirstIndex(KeysOf(pinned + ranked), (pinned + ranked)[n].key) == n
    ensures (pinned + ranked)[n].key in KeysOf(pinned) <==> n < |pinned|
  {
    var key := (pinned + ranked)[n].key;
    if n < |pinned| {
      assert KeysOf(pinned)[n] == key;
    } else {
      assert forall j :: 0 <= j < |pinned| ==> KeysOf(pinned)[j] == KeysOf(pinned + ranked)[j];
    }
  }

  method MergePinned(pinned: seq<Doc>, ranked: seq<Doc>, outputLimit: int) returns (merged: seq<Doc>)
    ensures |merged| == Seats(KeysOf(pinned), KeysOf(ranked), outputLimit)
    ensures MergedSoFar(merged, pinned, ranked)
  {
    hide MergedSoFar, FirstSeen;
    ghost var all := pinned + ranked;
    merged := [];
    var seen: set<Key> := {};
    Unmerged(pinned, ranked);
    for i := 0 to |pinned|
      invariant MergedSoFar(merged, pinned, ranked)
      invariant |merged| == |FirstSeen(KeysOf(all[..i]))|
      invariant forall k :: k in seen <==> k in KeysOf(all[..i])
    {
      NextDoc(merged, pinned, ranked, i);
      KeyAppended(all, i);
      if pinned[i].key !in seen {
        seen := seen + {pinned[i].key};
        merged := merged + [pinned[i].(pinned := true)];
      }
    }
    ghost var p := |merged|;
    assert all[..|pinned|] == pinned;
    var remaining := if outputLimit - |merged| > 0 then outputLimit - |merged| else 0;
    ghost var last := |pinned|;
    if remaining > 0 {
      for i := 0 to |ranked|
        invariant last == |pinned| + i && MergedSoFar(merged, pinned, ranked)
        invariant |merged| == |FirstSeen(KeysOf(all[..last]))|
        invariant forall k :: k in seen <==> k in KeysOf(all[..last])
        invariant remaining > 0 && remaining + |merged| == outputLimit && |merged| >= p
      {
        NextDoc(merged, pinned, ranked, last);
        KeyAppended(all, last);
        last := last + 1;
        if ranked[i].key !in seen {
          seen := seen + {ranked[i].key};
          merged := merged + [ranked[i]];
          remaining := remaining - 1;
          if remaining == 0 {
            break;
          }
        }
      }
    }
    SeatsTaken(pinned, ranked, outputLimit, last);
  }

  lemma Unmerged(pinned: seq<Doc>, ranked: seq<Doc>)
    ensures MergedSoFar([], pinned, ranked) && FirstSeen(KeysOf((pinned + ranked)[..0])) == []
  {
  }

  lemma KeyAppended(all: seq<Doc>, n: nat)
    requires n < |all|
    ensures forall k :: k in KeysOf(all[..n + 1]) <==> k in KeysOf(all[..n]) || k == all[n].key
  {
    assert KeysOf(all[..n + 1]) == KeysOf(all[..n]) + [all[n].key];
  }

  lemma SeatsTaken(pinned: seq<Doc>, ranked: seq<Doc>, limit: int, last: nat)
    requires |pinned| <= last <= |pinned + ranked|
    requires var n := |FirstSeen(KeysOf((pinned + ranked)[..last]))|;
             n == limit || (last == |pinned + ranked| && n <= limit) || (last == |pinned| && n >= limit)
    ensures |FirstSeen(KeysOf((pinned + ranked)[..last]))| == Seats(KeysOf(pinned), KeysOf(ranked), limit)
  {
    hide FirstSeen;
    var keys := KeysOf(pinned) + KeysOf(ranked);
    assert KeysOf((pinned + ranked)[..last]) == keys[..last];
    FirstSeenGrows(keys, last);
    FirstSeenGrows(keys[..last], |pinned|);
    assert keys[..last][..|pinned|] == KeysOf(pinned);
    assert keys[..|keys|] == keys;
  }

  lemma MergedKeyAt(pinned: seq<Doc>, ranked: seq<Doc>, merged: seq<Doc>, i: nat)
    requires i < |merged| && MergedSoFar(merged, pinned, ranked)
    ensures i < |FirstSeen(KeysOf(pinned) + KeysOf(ranked))|
    ensures merged[i].key == FirstSeen(KeysOf(pinned) + KeysOf(ranked))[i]
  {
    assert KeysOf(pinned + ranked) == KeysOf(pinned) + KeysOf(ranked);
  }

  /** The merged list names each tool once; every pinned tool comes before every ranked one,
      and ranked tools keep the order they were ranked in. */
  lemma MergedOrder(pinned: seq<Doc>, ranked: seq<Doc>, merged: seq<Doc>, i: nat, j: nat)
    requires i < j < |merged| && MergedSoFar(merged, pinned, ranked)
    ensures merged[i].key != merged[j].key
    ensures merged[j].key in KeysOf(pinned) ==> merged[i].key in KeysOf(pinned)
    ensures merged[i].key !in KeysOf(pinned) ==>
              FirstIndex(KeysOf(ranked), merged[i].key) < FirstIndex(KeysOf(ranked), merged[j].key)
  {
    hide FirstSeen, FirstIndex, MergedSoFar;
    var keys := KeysOf(pinned) + KeysOf(ranked);
    assert keys[..|keys|] == keys;
    FirstSeenInOrder(keys, |keys|);
    MergedKeyAt(pinned, ranked, merged, i);
    MergedKeyAt(pinned, ranked, merged, j);
    FirstIndexOfSum(KeysOf(pinned), KeysOf(ranked), merged[i].key);
    FirstIndexOfSum(KeysOf(pinned), KeysOf(ranked), merged[j].key);
  }

  /** What stands at each place: the first pinned document of its key, marked as pinned, or
      the first ranked one as it was. */
  lemma MergedInFull(pinned: seq<Doc>, ranked: seq<Doc>, merged: seq<Doc>, i: nat) returns (n: nat)
    requires i < |merged| && MergedSoFar(merged, pinned, ranked)
    ensures merged[i].key in KeysOf(pinned) ==>
              n < |pinned| && merged[i] == pinned[n].(pinned := true) && forall m :: 0 <= m < n ==> pinned[m].key != merged[i].key
    ensures merged[i].key !in KeysOf(pinned) ==>
              n < |ranked| && merged[i] == ranked[n] && forall m :: 0 <= m < n ==> ranked[m].key != merged[i].key
  {
    hide FirstSeen, FirstIndex;
    var key := FirstSeen(KeysOf(pinned + ranked))[i];
    assert KeysOf(pinned + ranked) == KeysOf(pinned) + KeysOf(ranked);
    FirstIndexOfSum(KeysOf(pinned), KeysOf(ranked), key);
    if key in KeysOf(pinned) {
      n := FirstWithKey(pinned, key);
    } else {
      n := FirstWithKey(ranked, key);
    }
  }

  lemma FirstWithKey(docs: seq<Doc>, key: Key) returns (n: nat)
    requires key in KeysOf(docs)
    ensures n == FirstIndex(KeysOf(docs), key) < |docs| && docs[n].key == key
    ensures forall m :: 0 <= m < n ==> docs[m].key != key
  {
    n := FirstIndex(KeysOf(docs), key);
    assert forall m :: 0 <= m < |docs| ==> KeysOf(docs)[m] == docs[m].key;
  }

  /** Pinning is never dropped by the limit. */
  lemma PinnedPresent(pinned: seq<Doc>, ranked: seq<Doc>, limit: int, merged: seq<Doc>, key: Key)
    requires |merged| == Seats(KeysOf(pinned), KeysOf(ranked), limit) && MergedSoFar(merged, pinned, ranked)
    requires key in KeysOf(pinned)
    ensures exists i :: 0 <= i < |merged| && merged[i].key == key
  {
    hide FirstSeen, MergedSoFar;
    var p, keys := KeysOf(pinned), KeysOf(pinned) + KeysOf(ranked);
    FirstSeenMembers(p);
    FirstSeenGrows(keys, |p|);
    assert keys[..|p|] == p;
    var i :| 0 <= i < |FirstSeen(p)| && FirstSeen(p)[i] == key;
    MergedKeyAt(pinned, ranked, merged, i);
  }
}
