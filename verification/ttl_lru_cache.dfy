/** The embedding cache of services/embeddings.py: an ordered dictionary, oldest entry
    first, with a time-to-live and a size cap, related to the history of calls it serves. */
module TtlLru {
  import opened Wrappers

  datatype Entry<V> = Entry(key: string, value: V, expires: int)

  ghost predicate Distinct<V>(items: seq<Entry<V>>) {
    forall i, j :: 0 <= i < j < |items| ==> items[i].key != items[j].key
  }

  /** Where a key sits, or the length when it is absent. */
  function Position<V>(items: seq<Entry<V>>, key: string): (i: nat)
    ensures i <= |items| && (i < |items| ==> items[i].key == key)
    ensures forall j :: 0 <= j < i ==> items[j].key != key
  {
    if items == [] || items[0].key == key then 0 else 1 + Position(items[1..], key)
  }

  function Dropped<V>(items: seq<Entry<V>>, key: string): seq<Entry<V>> {
    var i := Position(items, key);
    if i == |items| then items else items[..i] + items[i + 1..]
  }

  function Hit<V>(items: seq<Entry<V>>, key: string, now: int): Option<V> {
    var i := Position(items, key);
    if i < |items| && now <= items[i].expires then Some(items[i].value) else None
  }

  /** A hit moves to the young end, an expired entry goes, a miss changes nothing. */
  function AfterGet<V>(items: seq<Entry<V>>, key: string, now: int): seq<Entry<V>> {
    var i := Position(items, key);
    if i == |items| then items
    else if now > items[i].expires then Dropped(items, key)
    else Dropped(items, key) + [items[i]]
  }

  function AfterSet<V>(items: seq<Entry<V>>, key: string, value: V, expires: int, maxEntries: nat): seq<Entry<V>> {
    var placed := Dropped(items, key) + [Entry(key, value, expires)];
    if |placed| > maxEntries then placed[|placed| - maxEntries..] else placed
  }

  class TtlLruCache<V> {
    const maxEntries: nat
    const ttl: nat
    var items: seq<Entry<V>>

    constructor (maxEntries: int, ttlSeconds: int)
      ensures items == []
      ensures this.maxEntries == if maxEntries < 1 then 1 else maxEntries
      ensures this.ttl == if ttlSeconds < 0 then 0 else ttlSeconds
    {
      this.maxEntries := if maxEntries < 1 then 1 else maxEntries;
      this.ttl := if ttlSeconds < 0 then 0 else ttlSeconds;
      items := [];
    }

    method Get(key: string, now: int) returns (value: Option<V>)
      modifies this
      ensures value == Hit(old(items), key, now)
      ensures items == AfterGet(old(items), key, now)
    {
      var i := Position(items, key);
      if i == |items| {
        return None;
      }
      var hit := items[i];
      items := items[..i] + items[i + 1..];
      if now > hit.expires {
        return None;
      }
      items := items + [hit];
      return Some(hit.value);
    }

    method Set(key: string, value: V, now: int)
      modifies this
      ensures items == AfterSet(old(items), key, value, now + ttl, maxEntries)
    {
      var i := Position(items, key);
      if i < |items| {
        items := items[..i] + items[i + 1..];
      }
      items := items + [Entry(key, value, now + ttl)];
      ghost var placed := items;
      assert placed == Dropped(old(items), key) + [Entry(key, value, now + ttl)];
      while |items| > maxEntries
        invariant |items| <= |placed| && (|items| >= maxEntries || |items| == |placed|)
        invariant items == placed[|placed| - |items|..]
      {
        items := items[1..];
      }
    }
  }

  // ---- The cache against its history ---------------------------------------------------

  datatype Op<V> = Get(key: string, now: int) | Set(key: string, value: V, now: int)

  datatype Config = Config(maxEntries: nat, ttl: nat)

  function Step<V>(c: Config, items: seq<Entry<V>>, op: Op<V>): seq<Entry<V>> {
    match op
    case Get(key, now) => AfterGet(items, key, now)
    case Set(key, value, now) => AfterSet(items, key, value, now + c.ttl, c.maxEntries)
  }

  /** The cache after a history of calls, starting empty. */
  function After<V>(c: Config, ops: seq<Op<V>>): seq<Entry<V>> {
    if ops == [] then [] else Step(c, After(c, ops[..|ops| - 1]), ops[|ops| - 1])
  }

  /** The latest `set` of a key in a history: what a plain timestamped map would hold. */
  function Latest<V>(ops: seq<Op<V>>, key: string): Option<Op<V>> {
    if ops == [] then None
    else if ops[|ops| - 1].Set? && ops[|ops| - 1].key == key then Some(ops[|ops| - 1])
    else Latest(ops[..|ops| - 1], key)
  }

  ghost predicate Truthful<V>(c: Config, ops: seq<Op<V>>, e: Entry<V>) {
    var latest := Latest(ops, e.key);
    latest.Some? && latest.value.Set? && e.value == latest.value.value && e.expires == latest.value.now + c.ttl
  }

  lemma DroppedAway<V>(items: seq<Entry<V>>, key: string)
    requires Distinct(items)
    ensures Distinct(Dropped(items, key)) && |Dropped(items, key)| <= |items|
    ensures forall e :: e in Dropped(items, key) ==> e in items && e.key != key
  {
    var i := Position(items, key);
    var rest := Dropped(items, key);
    assert forall j :: 0 <= j < |rest| ==> rest[j] == items[if j < i then j else j + 1];
    forall e | e in rest ensures e in items && e.key != key {
      var j :| 0 <= j < |rest| && rest[j] == e;
    }
  }

  /** Keys stay distinct, the size cap holds, and every entry is the latest `set` of its key. */
  lemma {:induction false} Refines<V>(c: Config, ops: seq<Op<V>>)
    requires c.maxEntries >= 1
    ensures Distinct(After(c, ops)) && |After(c, ops)| <= c.maxEntries
    ensures forall e :: e in After(c, ops) ==> Truthful(c, ops, e)
  {
    if ops != [] {
      var before, op := ops[..|ops| - 1], ops[|ops| - 1];
      Refines(c, before);
      DroppedAway(After(c, before), op.key);
      forall e | e in After(c, ops) ensures Truthful(c, ops, e) {
        if !(op.Set? && e == Entry(op.key, op.value, op.now + c.ttl)) {
          assert e in After(c, before) && Truthful(c, before, e);
        }
      }
    }
  }

  /** A hit is the value of the latest `set` of that key, which has not expired. */
  lemma HitIsLatest<V>(c: Config, ops: seq<Op<V>>, key: string, now: int)
    requires c.maxEntries >= 1 && Hit(After(c, ops), key, now).Some?
    ensures var latest := Latest(ops, key);
      latest.Some? && latest.value.Set? && latest.value.key == key
      && Hit(After(c, ops), key, now) == Some(latest.value.value) && now <= latest.value.now + c.ttl
  {
    Refines(c, ops);
    var e := After(c, ops)[Position(After(c, ops), key)];
    assert Truthful(c, ops, e);
    LatestKey(ops, key);
  }

  lemma {:induction false} LatestKey<V>(ops: seq<Op<V>>, key: string)
    ensures Latest(ops, key).Some? ==> Latest(ops, key).value.Set? && Latest(ops, key).value.key == key
  {
    if ops != [] {
      LatestKey(ops[..|ops| - 1], key);
    }
  }

  ghost predicate Chronological<V>(ops: seq<Op<V>>) {
    forall i, j :: 0 <= i < j < |ops| ==> ops[i].now <= ops[j].now
  }

  /** Call `i` sets its key, or hits it. */
  ghost predicate Touches<V>(c: Config, ops: seq<Op<V>>, i: nat)
    requires i < |ops|
  {
    ops[i].Set? || Hit(After(c, ops[..i]), ops[i].key, ops[i].now).Some?
  }

  /** The other keys set or hit after call `t` and before call `n`. */
  ghost function OthersSince<V>(c: Config, ops: seq<Op<V>>, t: nat, key: string, n: nat): set<string>
    requires n <= |ops|
  {
    set i | t < i < n && Touches(c, ops, i) && ops[i].key != key :: ops[i].key
  }

  /** `e` sits at `p` and only keys in `others` are younger. */
  ghost predicate KeptAt<V>(items: seq<Entry<V>>, e: Entry<V>, others: set<string>, p: nat) {
    p < |items| && items[p] == e && forall q :: p < q < |items| ==> items[q].key in others
  }

  lemma {:induction false} YoungerCount<V>(items: seq<Entry<V>>, p: nat, others: set<string>)
    requires Distinct(items) && p < |items|
    requires forall q :: p < q < |items| ==> items[q].key in others
    ensures |items| - 1 - p <= |others|
  {
    if p + 1 < |items| {
      var last := items[|items| - 1];
      var older := items[..|items| - 1];
      forall q | p < q < |older| ensures older[q].key in others - {last.key} {
        assert older[q] == items[q] && items[q].key != last.key;
      }
      YoungerCount(older, p, others - {last.key});
    }
  }

  lemma DroppedAt<V>(items: seq<Entry<V>>, key: string, q: nat)
    requires Position(items, key) < |items| && q < |items| - 1
    ensures |Dropped(items, key)| == |items| - 1
    ensures Dropped(items, key)[q] == items[if q < Position(items, key) then q else q + 1]
  {
  }

  lemma KeptAfterDrop<V>(items: seq<Entry<V>>, e: Entry<V>, others: set<string>, key: string, p: nat) returns (p': nat)
    requires KeptAt(items, e, others, p) && key != e.key
    ensures KeptAt(Dropped(items, key), e, others, p')
  {
    var i := Position(items, key);
    p' := if i < p then p - 1 else p;
    if i < |items| {
      DroppedAt(items, key, p');
      forall q | p' < q < |items| - 1 ensures Dropped(items, key)[q].key in others {
        DroppedAt(items, key, q);
      }
    }
  }

  lemma KeptAfterCap<V>(items: seq<Entry<V>>, e: Entry<V>, others: set<string>, cap: nat, p: nat) returns (p': nat)
    requires KeptAt(items, e, others, p) && Distinct(items) && |others| < cap < |items|
    ensures KeptAt(items[|items| - cap..], e, others, p')
  {
    YoungerCount(items, p, others);
    p' := p - (|items| - cap);
    assert items[|items| - cap..][p'] == e;
  }

  lemma GetKeepsEntry<V>(items: seq<Entry<V>>, e: Entry<V>, others: set<string>, key: string, now: int, p: nat) returns (p': nat)
    requires KeptAt(items, e, others, p) && key != e.key && (Hit(items, key, now).Some? ==> key in others)
    ensures KeptAt(AfterGet(items, key, now), e, others, p')
  {
    if Position(items, key) == |items| {
      p' := p;
    } else {
      p' := KeptAfterDrop(items, e, others, key, p);
    }
  }

  lemma SetKeepsEntry<V>(c: Config, items: seq<Entry<V>>, e: Entry<V>, others: set<string>, young: Entry<V>, p: nat) returns (p': nat)
    requires KeptAt(items, e, others, p) && Distinct(items) && |others| < c.maxEntries
    requires young.key != e.key && young.key in others
    ensures KeptAt(AfterSet(items, young.key, young.value, young.expires, c.maxEntries), e, others, p')
  {
    p' := KeptAfterDrop(items, e, others, young.key, p);
    DroppedAway(items, young.key);
    var placed := Dropped(items, young.key) + [young];
    assert KeptAt(placed, e, others, p');
    if |placed| > c.maxEntries {
      assert Distinct(placed);
      p' := KeptAfterCap(placed, e, others, c.maxEntries, p');
    }
  }

  /** One call on another key keeps an entry that has fewer than `maxEntries` rivals. */
  lemma StepKeepsEntry<V>(c: Config, items: seq<Entry<V>>, e: Entry<V>, others: set<string>, op: Op<V>, p: nat) returns (p': nat)
    requires KeptAt(items, e, others, p) && Distinct(items) && |others| < c.maxEntries
    requires op.key != e.key
    requires op.Set? || Hit(items, op.key, op.now).Some? ==> op.key in others
    ensures KeptAt(Step(c, items, op), e, others, p')
  {
    hide KeptAt, Distinct, AfterGet, AfterSet;
    match op {
      case Get(key, now) => p' := GetKeepsEntry(items, e, others, key, now, p);
      case Set(key, value, now) => p' := SetKeepsEntry(c, items, e, others, Entry(key, value, now + c.ttl), p);
    }
  }

  lemma KeptHits<V>(items: seq<Entry<V>>, e: Entry<V>, others: set<string>, now: int, p: nat)
    requires KeptAt(items, e, others, p) && Distinct(items) && now <= e.expires
    ensures Hit(items, e.key, now) == Some(e.value)
  {
    assert Position(items, e.key) == p;
  }

  lemma CardinalityMonotone(a: set<string>, b: set<string>)
    requires a <= b
    ensures |a| <= |b|
  {
    assert b == a + (b - a);
  }

  lemma {:induction false} AfterPrefix<V>(c: Config, ops: seq<Op<V>>, n: nat)
    requires n < |ops|
    ensures After(c, ops[..n + 1]) == Step(c, After(c, ops[..n]), ops[n])
    ensures Latest(ops[..n + 1], ops[n].key) == if ops[n].Set? then Some(ops[n]) else Latest(ops[..n], ops[n].key)
    ensures forall key :: key != ops[n].key ==> Latest(ops[..n + 1], key) == Latest(ops[..n], key)
  {
    assert ops[..n + 1][..n] == ops[..n];
  }

  /** Call `t` is the last to touch `key`, and fewer than `maxEntries` other keys were since. */
  ghost predicate LastTouch<V>(c: Config, ops: seq<Op<V>>, t: nat, key: string) {
    && t < |ops| && ops[t].key == key && Touches(c, ops, t)
    && (forall i :: t < i < |ops| && ops[i].key == key ==> !Touches(c, ops, i))
    && |OthersSince(c, ops, t, key, |ops|)| < c.maxEntries
  }

  lemma TouchIsYoungest<V>(c: Config, ops: seq<Op<V>>, t: nat, e: Entry<V>) returns (p: nat)
    requires c.maxEntries >= 1 && LastTouch(c, ops, t, e.key)
    requires Truthful(c, ops[..t + 1], e)
    ensures KeptAt(After(c, ops[..t + 1]), e, OthersSince(c, ops, t, e.key, t + 1), p)
  {
    hide Latest, After;
    Refines(c, ops[..t + 1]);
    AfterPrefix(c, ops, t);
    var items := After(c, ops[..t + 1]);
    p := |items| - 1;
    var youngest := items[p];
    assert youngest.key == e.key && youngest in items && Truthful(c, ops[..t + 1], youngest);
  }

  lemma KeptOneMore<V>(c: Config, ops: seq<Op<V>>, t: nat, e: Entry<V>, n: nat, p: nat) returns (p': nat)
    requires c.maxEntries >= 1 && LastTouch(c, ops, t, e.key) && t < n < |ops|
    requires KeptAt(After(c, ops[..n]), e, OthersSince(c, ops, t, e.key, n), p) && ops[n].now <= e.expires
    ensures KeptAt(After(c, ops[..n + 1]), e, OthersSince(c, ops, t, e.key, n + 1), p')
    ensures ops[n].key != e.key
  {
    var items, op := After(c, ops[..n]), ops[n];
    var fewer, others := OthersSince(c, ops, t, e.key, n), OthersSince(c, ops, t, e.key, n + 1);
    assert fewer <= others <= OthersSince(c, ops, t, e.key, |ops|);
    CardinalityMonotone(others, OthersSince(c, ops, t, e.key, |ops|));
    Refines(c, ops[..n]);
    KeptHits(items, e, fewer, op.now, p);
    assert KeptAt(items, e, others, p);
    AfterPrefix(c, ops, n);
    p' := StepKeepsEntry(c, items, e, others, op, p);
  }

  lemma StillLatest<V>(c: Config, ops: seq<Op<V>>, t: nat, e: Entry<V>, n: nat)
    requires LastTouch(c, ops, t, e.key) && t < n < |ops| && Truthful(c, ops[..n + 1], e)
    ensures Truthful(c, ops[..n], e)
  {
    hide Latest, After, OthersSince;
    assert ops[n].key == e.key ==> !Touches(c, ops, n);
    AfterPrefix(c, ops, n);
  }

  /** From its last touch on, a key's entry stays as long as it has not expired. */
  lemma {:induction false} KeptSince<V>(c: Config, ops: seq<Op<V>>, t: nat, e: Entry<V>, n: nat) returns (p: nat)
    requires c.maxEntries >= 1 && LastTouch(c, ops, t, e.key) && t < n <= |ops|
    requires Truthful(c, ops[..n], e) && forall i :: 0 <= i < n ==> ops[i].now <= e.expires
    ensures KeptAt(After(c, ops[..n]), e, OthersSince(c, ops, t, e.key, n), p)
  {
    hide KeptAt, OthersSince, After, Latest, LastTouch, Truthful;
    if t + 1 == n {
      p := TouchIsYoungest(c, ops, t, e);
    } else {
      StillLatest(c, ops, t, e, n - 1);
      p := KeptSince(c, ops, t, e, n - 1);
      p := KeptOneMore(c, ops, t, e, n - 1, p);
    }
  }

  /** Retention: a key last touched at call `t` is still served, with its latest value, as
      long as that has not expired and fewer than `maxEntries` other keys were touched since. */
  lemma Retention<V>(c: Config, ops: seq<Op<V>>, t: nat, e: Entry<V>, now: int)
    requires c.maxEntries >= 1 && LastTouch(c, ops, t, e.key) && Chronological(ops) && ops[|ops| - 1].now <= now
    requires Truthful(c, ops, e) && now <= e.expires
    ensures Hit(After(c, ops), e.key, now) == Some(e.value)
  {
    hide KeptAt, OthersSince, After, Latest;
    assert ops[..|ops|] == ops;
    var p := KeptSince(c, ops, t, e, |ops|);
    Refines(c, ops);
    KeptHits(After(c, ops), e, OthersSince(c, ops, t, e.key, |ops|), now, p);
  }

  // ---- What each call does ---------------------------------------------------------------

  /** The entries of all other keys, in their order. */
  function Without<V>(items: seq<Entry<V>>, key: string): seq<Entry<V>> {
    if items == [] then [] else (if items[0].key == key then [] else [items[0]]) + Without(items[1..], key)
  }

  lemma {:induction false} WithoutMembers<V>(items: seq<Entry<V>>, key: string)
    ensures forall e :: e in Without(items, key) <==> e in items && e.key != key
  {
    if items != [] {
      WithoutMembers(items[1..], key);
    }
  }

  lemma {:induction false} WithoutAbsent<V>(items: seq<Entry<V>>, key: string)
    requires forall e :: e in items ==> e.key != key
    ensures Without(items, key) == items
  {
    if items != [] {
      WithoutAbsent(items[1..], key);
    }
  }

  lemma {:induction false} DroppedIsWithout<V>(items: seq<Entry<V>>, key: string)
    requires Distinct(items)
    ensures Dropped(items, key) == Without(items, key)
  {
    if items != [] {
      var rest := items[1..];
      if items[0].key == key {
        WithoutAbsent(rest, key);
        assert Dropped(items, key) == rest;
      } else {
        DroppedIsWithout(rest, key);
        assert Dropped(items, key) == [items[0]] + Dropped(rest, key);
      }
    }
  }

  lemma AfterOneMore<V>(c: Config, ops: seq<Op<V>>, op: Op<V>)
    ensures After(c, ops + [op]) == Step(c, After(c, ops), op)
  {
    assert (ops + [op])[..|ops|] == ops;
  }

  /** After any history: a get hits exactly if the key has an unexpired entry. On a hit that
      entry becomes the youngest; after a miss the key has no entry, expired ones included.
      The other entries keep their order. */
  lemma GetExactly<V>(c: Config, ops: seq<Op<V>>, key: string, now: int)
    requires c.maxEntries >= 1
    ensures var before, later := After(c, ops), After(c, ops + [Get(key, now)]);
            match Hit(before, key, now)
            case Some(value) =>
              exists e :: e in before && e.key == key && now <= e.expires && e.value == value && later == Without(before, key) + [e]
            case None =>
              && (forall e :: e in before && e.key == key ==> now > e.expires)
              && later == Without(before, key) && forall e :: e in later ==> e.key != key
  {
    var before := After(c, ops);
    Refines(c, ops);
    AfterOneMore(c, ops, Get(key, now));
    WithoutMembers(before, key);
    DroppedIsWithout(before, key);
    var i := Position(before, key);
    if i < |before| {
      assert before[i] in before;
      assert forall e :: e in before && e.key == key ==> e == before[i];
    } else {
      WithoutAbsent(before, key);
    }
  }

  lemma Capped<V>(placed: seq<Entry<V>>, cap: nat, later: seq<Entry<V>>)
    requires later == if |placed| > cap then placed[|placed| - cap..] else placed
    ensures |later| == (if |placed| < cap then |placed| else cap) && later == placed[|placed| - |later|..]
  {
    assert placed[0..] == placed;
  }

  lemma SetStep<V>(c: Config, items: seq<Entry<V>>, key: string, value: V, now: int)
    ensures var placed := Dropped(items, key) + [Entry(key, value, now + c.ttl)];
            Step(c, items, Set(key, value, now)) == if |placed| > c.maxEntries then placed[|placed| - c.maxEntries..] else placed
  {
    hide Dropped;
  }

  /** After any history: a set puts its entry, good for the lifetime from now, behind those of
      the other keys, and what exceeds the maximum goes from the old end. */
  lemma SetExactly<V>(c: Config, ops: seq<Op<V>>, key: string, value: V, now: int)
    requires c.maxEntries >= 1
    ensures var placed := Without(After(c, ops), key) + [Entry(key, value, now + c.ttl)];
            var later := After(c, ops + [Set(key, value, now)]);
            |later| == (if |placed| < c.maxEntries then |placed| else c.maxEntries) && later == placed[|placed| - |later|..]
  {
    hide *;
    var before, later := After(c, ops), After(c, ops + [Set(key, value, now)]);
    assert Dropped(before, key) == Without(before, key) by {
      Refines(c, ops);
      DroppedIsWithout(before, key);
    }
    AfterOneMore(c, ops, Set(key, value, now));
    SetStep(c, before, key, value, now);
    Capped(Without(before, key) + [Entry(key, value, now + c.ttl)], c.maxEntries, later);
  }
}
