/** The kill-switch of services/tenant_status.py: a tenant's status (and, with the same
    code, its read-only flag) is stored in one control document and cached by every replica
    for a short time. Replicas read, write and cache it in interleaved steps on one clock. */
module TenantStatus {
  import opened Wrappers

  datatype Entry<V> = Entry(value: V, expiry: int)

  /** `decode` turns a stored value, or its absence, into the effective one. */
  datatype Config<!V> = Config(ttl: nat, decode: Option<V> -> V)

  // ---- One replica's cache -------------------------------------------------------------

  function Lookup<V>(cache: map<string, Entry<V>>, tenant: string, now: int): Option<V> {
    if tenant in cache && cache[tenant].expiry > now then Some(cache[tenant].value) else None
  }

  /** After a read: nothing is cached without a time-to-live. */
  function Remembered<V>(cache: map<string, Entry<V>>, tenant: string, value: V, started: int, ttl: nat): map<string, Entry<V>> {
    if ttl > 0 then cache[tenant := Entry(value, started + ttl)] else cache
  }

  /** After a write: without a time-to-live any old entry goes. */
  function WrittenThrough<V>(cache: map<string, Entry<V>>, tenant: string, value: V, now: int, ttl: nat): map<string, Entry<V>> {
    if ttl > 0 then cache[tenant := Entry(value, now + ttl)] else cache - {tenant}
  }

  class Replica<V> {
    const ttl: nat
    var cache: map<string, Entry<V>>

    constructor (ttlSeconds: int)
      ensures cache == map[] && ttl == if ttlSeconds < 0 then 0 else ttlSeconds
    {
      ttl := if ttlSeconds < 0 then 0 else ttlSeconds;
      cache := map[];
    }

    /** The cache-first part of a getter. */
    method TryCache(tenant: string, now: int) returns (value: Option<V>)
      ensures value == Lookup(cache, tenant, now)
      ensures value.Some? <==> tenant in cache && now < cache[tenant].expiry
      ensures value.Some? ==> value.value == cache[tenant].value
    {
      if tenant in cache {
        var cached := cache[tenant];
        if cached.expiry > now {
          return Some(cached.value);
        }
      }
      return None;
    }

    /** The rest of a getter, once the control document has been read. */
    method FinishRead(tenant: string, value: V, started: int)
      modifies this
      ensures cache == Remembered(old(cache), tenant, value, started, ttl)
      ensures cache == if ttl == 0 then old(cache) else old(cache)[tenant := Entry(value, started + ttl)]
    {
      if ttl > 0 {
        cache := cache[tenant := Entry(value, started + ttl)];
      }
    }

    /** The rest of a setter, once the control document has been updated. */
    method WriteThrough(tenant: string, value: V, now: int)
      modifies this
      ensures cache == WrittenThrough(old(cache), tenant, value, now, ttl)
      ensures cache == if ttl == 0 then old(cache) - {tenant} else old(cache)[tenant := Entry(value, now + ttl)]
    {
      if ttl > 0 {
        cache := cache[tenant := Entry(value, now + ttl)];
      } else {
        cache := cache - {tenant};
      }
    }

    method Reset()
      modifies this
      ensures cache == map[]
    {
      cache := map[];
    }
  }

  // ---- All replicas -------------------------------------------------------------------------

  /** A getter that missed the cache; `read` once the database has answered. */
  datatype Reader<V> = Reader(replica: nat, tenant: string, started: int, read: Option<V>)

  /** A setter between its database update and its cache update. */
  datatype Writer<V> = Writer(replica: nat, tenant: string, value: V, wroteAt: int)

  datatype System<V> = System(
    clock: int,
    stored: map<string, V>,
    caches: map<nat, map<string, Entry<V>>>,
    readers: map<nat, Reader<V>>,
    writers: map<nat, Writer<V>>)

  datatype Action<V> =
    | Tick(now: int)
    | Get(op: nat, replica: nat, tenant: string)
    | ReadStored(op: nat)
    | FinishGet(op: nat)
    | Write(op: nat, replica: nat, tenant: string, value: V)
    | CacheWrite(op: nat)
    | External(tenant: string, edited: Option<V>)     // created, removed or edited elsewhere
    | ResetCache(replica: nat)

  function CacheOf<V>(s: System<V>, replica: nat): map<string, Entry<V>> {
    if replica in s.caches then s.caches[replica] else map[]
  }

  function Effective<V>(c: Config<V>, s: System<V>, tenant: string): V {
    c.decode(if tenant in s.stored then Some(s.stored[tenant]) else None)
  }

  predicate Enabled<V>(s: System<V>, a: Action<V>) {
    match a
    case Tick(now) => s.clock <= now
    case Get(op, _, _) => op !in s.readers
    case ReadStored(op) => op in s.readers && s.readers[op].read.None?
    case FinishGet(op) => op in s.readers && s.readers[op].read.Some?
    case Write(op, _, _, _) => op !in s.writers
    case CacheWrite(op) => op in s.writers
    case External(_, _) => true
    case ResetCache(_) => true
  }

  function Apply<V>(c: Config<V>, s: System<V>, a: Action<V>): System<V>
    requires Enabled(s, a)
  {
    match a
    case Tick(now) => s.(clock := now)
    case Get(op, replica, tenant) =>
      if Lookup(CacheOf(s, replica), tenant, s.clock).Some? then s
      else s.(readers := s.readers[op := Reader(replica, tenant, s.clock, None)])
    case ReadStored(op) =>
      s.(readers := s.readers[op := s.readers[op].(read := Some(Effective(c, s, s.readers[op].tenant)))])
    case FinishGet(op) =>
      var r := s.readers[op];
      s.(readers := s.readers - {op},
         caches := s.caches[r.replica := Remembered(CacheOf(s, r.replica), r.tenant, r.read.value, r.started, c.ttl)])
    case Write(op, replica, tenant, value) =>
      // A tenant without a control document is left alone.
      if tenant !in s.stored then s
      else s.(stored := s.stored[tenant := value], writers := s.writers[op := Writer(replica, tenant, value, s.clock)])
    case CacheWrite(op) =>
      var w := s.writers[op];
      s.(writers := s.writers - {op},
         caches := s.caches[w.replica := WrittenThrough(CacheOf(s, w.replica), w.tenant, w.value, s.clock, c.ttl)])
    case External(tenant, edited) =>
      s.(stored := if edited.Some? then s.stored[tenant := edited.value] else s.stored - {tenant})
    case ResetCache(replica) => s.(caches := s.caches - {replica})
  }

  /** What a getter step returns to its caller, if it returns. */
  function Served<V>(s: System<V>, a: Action<V>): Option<V>
    requires Enabled(s, a)
  {
    match a
    case Get(_, replica, tenant) => Lookup(CacheOf(s, replica), tenant, s.clock)
    case FinishGet(op) => s.readers[op].read
    case _ => None
  }

  /** A step that answers a getter: from the cache, or with what was read. */
  predicate Answers<V>(s: System<V>, a: Action<V>)
    requires Enabled(s, a)
  {
    Served(s, a).Some?
  }

  /** The tenant an answered getter asked for. */
  function AskedFor<V>(s: System<V>, a: Action<V>): string
    requires Enabled(s, a) && Answers(s, a)
  {
    if a.Get? then a.tenant else s.readers[a.op].tenant
  }

  function AskedOn<V>(s: System<V>, a: Action<V>): nat
    requires Enabled(s, a) && Answers(s, a)
  {
    if a.Get? then a.replica else s.readers[a.op].replica
  }

  /** When the answered getter began. */
  function AskedAt<V>(s: System<V>, a: Action<V>): int
    requires Enabled(s, a) && Answers(s, a)
  {
    if a.Get? then s.clock else s.readers[a.op].started
  }

  predicate Init<V>(s: System<V>) {
    s.caches == map[] && s.readers == map[] && s.writers == map[]
  }

  ghost predicate IsRun<V>(c: Config<V>, states: seq<System<V>>, actions: seq<Action<V>>) {
    && |states| == |actions| + 1 && Init(states[0])
    && forall i :: 0 <= i < |actions| ==> Enabled(states[i], actions[i]) && states[i + 1] == Apply(c, states[i], actions[i])
  }

  /** Setters reach their own cache within `delay` of updating the database, with a value
      the database then decodes to itself. */
  ghost predicate Prompt<V>(c: Config<V>, states: seq<System<V>>, actions: seq<Action<V>>, delay: nat)
    requires IsRun(c, states, actions)
  {
    && (forall i :: 0 <= i < |actions| && actions[i].CacheWrite? ==>
          states[i].clock <= states[i].writers[actions[i].op].wroteAt + delay)
    && (forall i :: 0 <= i < |actions| && actions[i].Write? ==> c.decode(Some(actions[i].value)) == actions[i].value)
  }

  // ---- Bounded staleness -----------------------------------------------------------------------

  /** The value was stored at some instant up to step `i`, no earlier than `since`. */
  ghost predicate StoredSince<V>(c: Config<V>, states: seq<System<V>>, i: nat, tenant: string, value: V, since: int) {
    exists k :: 0 <= k <= i < |states| && Effective(c, states[k], tenant) == value && states[k].clock >= since
  }

  /** A cached value was stored no longer ago than its age plus the setter's delay. */
  ghost predicate CacheRecent<V>(c: Config<V>, states: seq<System<V>>, i: nat, delay: nat, cache: map<string, Entry<V>>) {
    forall tenant :: tenant in cache ==>
      StoredSince(c, states, i, tenant, cache[tenant].value, cache[tenant].expiry - c.ttl - delay)
  }

  ghost predicate CachesRecent<V>(c: Config<V>, states: seq<System<V>>, i: nat, delay: nat)
    requires i < |states|
  {
    forall r :: r in states[i].caches ==> CacheRecent(c, states, i, delay, states[i].caches[r])
  }

  ghost predicate ReadersRecent<V>(c: Config<V>, states: seq<System<V>>, i: nat)
    requires i < |states|
  {
    forall op :: op in states[i].readers ==>
      var r := states[i].readers[op];
      r.started <= states[i].clock && (r.read.Some? ==> StoredSince(c, states, i, r.tenant, r.read.value, r.started))
  }

  ghost predicate WritersRecent<V>(c: Config<V>, states: seq<System<V>>, i: nat)
    requires i < |states|
  {
    forall op :: op in states[i].writers ==>
      var w := states[i].writers[op];
      StoredSince(c, states, i, w.tenant, w.value, w.wroteAt)
  }

  /** Every cached, read or about-to-be-cached value was stored recently enough. */
  ghost predicate Recent<V>(c: Config<V>, states: seq<System<V>>, i: nat, delay: nat)
    requires i < |states|
  {
    CachesRecent(c, states, i, delay) && ReadersRecent(c, states, i) && WritersRecent(c, states, i)
  }

  lemma StillStored<V>(c: Config<V>, states: seq<System<V>>, i: nat, tenant: string, value: V, since: int, later: int)
    requires i + 1 < |states| && StoredSince(c, states, i, tenant, value, since) && later <= since
    ensures StoredSince(c, states, i + 1, tenant, value, later)
  {
    var k :| 0 <= k <= i < |states| && Effective(c, states[k], tenant) == value && states[k].clock >= since;
    assert Effective(c, states[k], tenant) == value;
  }

  lemma CacheStillRecent<V>(c: Config<V>, states: seq<System<V>>, i: nat, delay: nat, cache: map<string, Entry<V>>)
    requires i + 1 < |states| && CacheRecent(c, states, i, delay, cache)
    ensures CacheRecent(c, states, i + 1, delay, cache)
  {
    forall tenant | tenant in cache
      ensures StoredSince(c, states, i + 1, tenant, cache[tenant].value, cache[tenant].expiry - c.ttl - delay)
    {
      StillStored(c, states, i, tenant, cache[tenant].value, cache[tenant].expiry - c.ttl - delay, cache[tenant].expiry - c.ttl - delay);
    }
  }

  lemma CachesStep<V>(c: Config<V>, states: seq<System<V>>, actions: seq<Action<V>>, i: nat, delay: nat)
    requires IsRun(c, states, actions) && Prompt(c, states, actions, delay) && i < |actions|
    requires Recent(c, states, i, delay)
    ensures CachesRecent(c, states, i + 1, delay)
  {
    hide StoredSince;
    var s, t, a := states[i], states[i + 1], actions[i];
    forall r | r in t.caches ensures CacheRecent(c, states, i + 1, delay, t.caches[r]) {
      CacheStillRecent(c, states, i, delay, CacheOf(s, r));
      if a.FinishGet? && s.readers[a.op].replica == r {
        var reader := s.readers[a.op];
        StillStored(c, states, i, reader.tenant, reader.read.value, reader.started, reader.started - delay);
      } else if a.CacheWrite? && s.writers[a.op].replica == r {
        var w := s.writers[a.op];
        StillStored(c, states, i, w.tenant, w.value, w.wroteAt, s.clock - delay);
      }
    }
  }

  lemma ReadersStep<V>(c: Config<V>, states: seq<System<V>>, actions: seq<Action<V>>, i: nat)
    requires IsRun(c, states, actions) && i < |actions| && ReadersRecent(c, states, i)
    ensures ReadersRecent(c, states, i + 1)
  {
    var s, t, a := states[i], states[i + 1], actions[i];
    forall op | op in t.readers
      ensures t.readers[op].started <= t.clock
      ensures t.readers[op].read.Some? ==>
                StoredSince(c, states, i + 1, t.readers[op].tenant, t.readers[op].read.value, t.readers[op].started)
    {
      var r := t.readers[op];
      if a.ReadStored? && a.op == op {
        assert Effective(c, states[i], r.tenant) == r.read.value;
      } else if op in s.readers && r.read.Some? {
        StillStored(c, states, i, r.tenant, r.read.value, r.started, r.started);
      }
    }
  }

  lemma WritersStep<V>(c: Config<V>, states: seq<System<V>>, actions: seq<Action<V>>, i: nat, delay: nat)
    requires IsRun(c, states, actions) && Prompt(c, states, actions, delay) && i < |actions| && WritersRecent(c, states, i)
    ensures WritersRecent(c, states, i + 1)
  {
    var s, t, a := states[i], states[i + 1], actions[i];
    forall op | op in t.writers
      ensures StoredSince(c, states, i + 1, t.writers[op].tenant, t.writers[op].value, t.writers[op].wroteAt)
    {
      var w := t.writers[op];
      if a.Write? && a.op == op && a.tenant in s.stored {
        assert Effective(c, states[i + 1], w.tenant) == w.value;
      } else {
        StillStored(c, states, i, w.tenant, w.value, w.wroteAt, w.wroteAt);
      }
    }
  }

  lemma {:induction false} AlwaysRecent<V>(c: Config<V>, states: seq<System<V>>, actions: seq<Action<V>>, i: nat, delay: nat)
    requires IsRun(c, states, actions) && Prompt(c, states, actions, delay) && i < |states|
    ensures Recent(c, states, i, delay)
  {
    if i > 0 {
      hide CacheRecent, StoredSince, Prompt;
      AlwaysRecent(c, states, actions, i - 1, delay);
      CachesStep(c, states, actions, i - 1, delay);
      ReadersStep(c, states, actions, i - 1);
      WritersStep(c, states, actions, i - 1, delay);
    }
  }

  /** Bounded staleness: a value served from a replica's cache was the stored value at some
      instant later than the time-to-live plus the setters' delay ago. */
  lemma CachedIsRecent<V>(c: Config<V>, states: seq<System<V>>, actions: seq<Action<V>>, i: nat, delay: nat)
    requires IsRun(c, states, actions) && Prompt(c, states, actions, delay) && i < |actions|
    requires actions[i].Get? && Served(states[i], actions[i]).Some?
    ensures StoredSince(c, states, i, actions[i].tenant, Served(states[i], actions[i]).value,
                        states[i].clock + 1 - c.ttl - delay)
  {
    AlwaysRecent(c, states, actions, i, delay);
    var e := states[i].caches[actions[i].replica][actions[i].tenant];
    assert CacheRecent(c, states, i, delay, states[i].caches[actions[i].replica]);
    var k :| 0 <= k <= i < |states| && Effective(c, states[k], actions[i].tenant) == e.value && states[k].clock >= e.expiry - c.ttl - delay;
    assert Effective(c, states[k], actions[i].tenant) == e.value;
  }

  /** A value served by the getter that read the database was stored while it was running. */
  lemma ReadIsCurrent<V>(c: Config<V>, states: seq<System<V>>, actions: seq<Action<V>>, i: nat, delay: nat)
    requires IsRun(c, states, actions) && Prompt(c, states, actions, delay) && i < |actions| && actions[i].FinishGet?
    ensures var r := states[i].readers[actions[i].op];
            r.read.Some? && StoredSince(c, states, i, r.tenant, r.read.value, r.started)
  {
    AlwaysRecent(c, states, actions, i, delay);
  }

  lemma {:induction false} ClockMoves<V>(c: Config<V>, states: seq<System<V>>, actions: seq<Action<V>>, i: nat, j: nat)
    requires IsRun(c, states, actions) && i <= j < |states|
    ensures states[i].clock <= states[j].clock
    decreases j
  {
    if i < j {
      ClockMoves(c, states, actions, i, j - 1);
      assert states[j] == Apply(c, states[j - 1], actions[j - 1]);
    }
  }

  /** Enforcement: once a stored value has stood unchanged from step `m` for the time-to-live
      plus the delay, every getter that starts then returns it, on every replica. */
  lemma ChangeReachesAll<V>(c: Config<V>, states: seq<System<V>>, actions: seq<Action<V>>, delay: nat,
                            m: nat, i: nat, value: V)
    requires IsRun(c, states, actions) && Prompt(c, states, actions, delay) && m <= i < |actions|
    requires Answers(states[i], actions[i])
    requires forall k :: m <= k <= i ==> Effective(c, states[k], AskedFor(states[i], actions[i])) == value
    requires AskedAt(states[i], actions[i]) >= states[m].clock + c.ttl + delay && AskedAt(states[i], actions[i]) > states[m].clock
    ensures Served(states[i], actions[i]).value == value
  {
    var tenant := AskedFor(states[i], actions[i]);
    var v := Served(states[i], actions[i]).value;
    var since := states[m].clock + 1;
    if actions[i].Get? {
      CachedIsRecent(c, states, actions, i, delay);
    } else {
      ReadIsCurrent(c, states, actions, i, delay);
    }
    var k :| 0 <= k <= i < |states| && Effective(c, states[k], tenant) == v && states[k].clock >= since;
    if k < m {
      ClockMoves(c, states, actions, k, m);
    }
  }

  // ---- The acting replica ------------------------------------------------------------------------

  /** A getter of this replica and tenant has read another value and is still on its way. */
  ghost predicate ReaderCarriesOther<V>(s: System<V>, replica: nat, tenant: string, value: V, op: nat) {
    && op in s.readers && s.readers[op].replica == replica && s.readers[op].tenant == tenant
    && s.readers[op].read.Some? && s.readers[op].read.value != value
  }

  /** A setter of this replica and tenant has still to cache another value. */
  ghost predicate WriterCarriesOther<V>(s: System<V>, replica: nat, tenant: string, value: V, op: nat) {
    op in s.writers && s.writers[op].replica == replica && s.writers[op].tenant == tenant && s.writers[op].value != value
  }

  /** No getter of the replica carries another value, nor, where there is a cache, any setter. */
  ghost predicate NoOtherCarried<V>(c: Config<V>, s: System<V>, replica: nat, tenant: string, value: V) {
    && (forall op :: !ReaderCarriesOther(s, replica, tenant, value, op))
    && (c.ttl > 0 ==> forall op :: !WriterCarriesOther(s, replica, tenant, value, op))
  }

  /** On one replica everything known or in flight about a tenant is the one value. */
  ghost predicate Settled<V>(c: Config<V>, s: System<V>, replica: nat, tenant: string, value: V) {
    && Effective(c, s, tenant) == value
    && (tenant in CacheOf(s, replica) ==> CacheOf(s, replica)[tenant].value == value)
    && NoOtherCarried(c, s, replica, tenant, value)
  }

  lemma SettledStep<V>(c: Config<V>, s: System<V>, a: Action<V>, replica: nat, tenant: string, value: V)
    requires Enabled(s, a) && Settled(c, s, replica, tenant, value) && !Disturbs(a, tenant, value)
    requires c.decode(Some(value)) == value
    ensures Settled(c, Apply(c, s, a), replica, tenant, value)
  {
    var t := Apply(c, s, a);
    forall op
      ensures !ReaderCarriesOther(t, replica, tenant, value, op)
    {
      assert !ReaderCarriesOther(s, replica, tenant, value, op);
    }
    forall op | c.ttl > 0
      ensures !WriterCarriesOther(t, replica, tenant, value, op)
    {
      assert !WriterCarriesOther(s, replica, tenant, value, op);
    }
    if a.CacheWrite? && c.ttl > 0 {
      assert !WriterCarriesOther(s, replica, tenant, value, a.op);
    }
    if a.FinishGet? {
      assert !ReaderCarriesOther(s, replica, tenant, value, a.op);
    }
  }

  /** The step changes the tenant's stored value, or may. */
  predicate Disturbs<V(==)>(a: Action<V>, tenant: string, value: V) {
    (a.Write? && a.tenant == tenant && a.value != value) || (a.External? && a.tenant == tenant)
  }

  /** What may follow a state, as long as nobody disturbs the tenant's value. */
  ghost predicate Follows<V>(c: Config<V>, s: System<V>, states: seq<System<V>>, actions: seq<Action<V>>, tenant: string, value: V) {
    && |states| == |actions| + 1 && states[0] == s
    && (forall i :: 0 <= i < |actions| ==> Enabled(states[i], actions[i]) && states[i + 1] == Apply(c, states[i], actions[i]))
    && (forall i :: 0 <= i < |actions| ==> !Disturbs(actions[i], tenant, value))
  }

  /** Every getter of this replica and tenant that this step answers gets this value. */
  ghost predicate GivesOnly<V>(s: System<V>, a: Action<V>, replica: nat, tenant: string, value: V)
    requires Enabled(s, a)
  {
    Answers(s, a) && AskedOn(s, a) == replica && AskedFor(s, a) == tenant ==> Served(s, a).value == value
  }

  /** From here on the replica answers with this value, whatever else happens. */
  ghost predicate InEffect<V(!new)>(c: Config<V>, s: System<V>, replica: nat, tenant: string, value: V) {
    forall states, actions :: Follows(c, s, states, actions, tenant, value) ==>
      forall i :: 0 <= i < |actions| ==> GivesOnly(states[i], actions[i], replica, tenant, value)
  }

  lemma {:induction false} StaysSettled<V>(c: Config<V>, s: System<V>, states: seq<System<V>>, actions: seq<Action<V>>,
                                           replica: nat, tenant: string, value: V, i: nat)
    requires Settled(c, s, replica, tenant, value) && c.decode(Some(value)) == value
    requires Follows(c, s, states, actions, tenant, value) && i < |states|
    ensures Settled(c, states[i], replica, tenant, value)
    ensures i < |actions| ==> GivesOnly(states[i], actions[i], replica, tenant, value)
  {
    if i > 0 {
      hide Settled, GivesOnly;
      StaysSettled(c, s, states, actions, replica, tenant, value, i - 1);
      SettledStep(c, states[i - 1], actions[i - 1], replica, tenant, value);
    }
    if i < |actions| {
      SettledGives(c, states[i], actions[i], replica, tenant, value);
    }
  }

  lemma SettledGives<V>(c: Config<V>, s: System<V>, a: Action<V>, replica: nat, tenant: string, value: V)
    requires Enabled(s, a) && Settled(c, s, replica, tenant, value)
    ensures GivesOnly(s, a, replica, tenant, value)
  {
    if a.FinishGet? {
      assert !ReaderCarriesOther(s, replica, tenant, value, a.op);
    }
  }

  /** A getter that carries another value answers with it, whenever it finishes. */
  lemma LateReaderAnswers<V(!new)>(c: Config<V>, s: System<V>, replica: nat, tenant: string, value: V, op: nat)
    requires ReaderCarriesOther(s, replica, tenant, value, op)
    ensures !InEffect(c, s, replica, tenant, value)
  {
    var states, actions := [s, Apply(c, s, FinishGet(op))], [FinishGet(op)];
    assert Follows(c, s, states, actions, tenant, value);
    assert !GivesOnly(states[0], actions[0], replica, tenant, value);
  }

  lemma {:induction false} UnusedOp(ops: set<nat>) returns (op: nat)
    ensures forall o :: o in ops ==> o < op
  {
    if ops == {} {
      op := 0;
    } else {
      var o :| o in ops;
      op := UnusedOp(ops - {o});
      assert forall p :: p in ops ==> p == o || p in ops - {o};
      op := if o < op then op else o + 1;
    }
  }

  /** A setter that carries another value caches it over the one just written. */
  lemma LateWriterCaches<V(!new)>(c: Config<V>, s: System<V>, replica: nat, tenant: string, value: V, op: nat)
    requires WriterCarriesOther(s, replica, tenant, value, op) && c.ttl > 0
    ensures !InEffect(c, s, replica, tenant, value)
  {
    var next := UnusedOp(s.readers.Keys);
    var s1 := Apply(c, s, CacheWrite(op));
    var get := Get(next, replica, tenant);
    assert next !in s.readers.Keys;
    var states, actions := [s, s1, Apply(c, s1, get)], [CacheWrite(op), get];
    assert Follows(c, s, states, actions, tenant, value);
    assert !GivesOnly(states[1], actions[1], replica, tenant, value);
  }

  /** A setter's change is effective on its own replica from its cache update on exactly if no
      getter there still carries another value and, where there is a cache, no other setter. */
  lemma WriteTakesEffect<V(!new)>(c: Config<V>, s: System<V>, op: nat)
    requires op in s.writers && c.decode(Some(s.writers[op].value)) == s.writers[op].value
    requires Effective(c, s, s.writers[op].tenant) == s.writers[op].value
    ensures var w, t := s.writers[op], Apply(c, s, CacheWrite(op));
            InEffect(c, t, w.replica, w.tenant, w.value) <==> NoOtherCarried(c, s, w.replica, w.tenant, w.value)
  {
    hide InEffect, Follows, GivesOnly;
    var w, t := s.writers[op], Apply(c, s, CacheWrite(op));
    SameCarried(c, s, op);
    if r :| ReaderCarriesOther(t, w.replica, w.tenant, w.value, r) {
      LateReaderAnswers(c, t, w.replica, w.tenant, w.value, r);
    } else if o :| c.ttl > 0 && WriterCarriesOther(t, w.replica, w.tenant, w.value, o) {
      LateWriterCaches(c, t, w.replica, w.tenant, w.value, o);
    } else {
      assert Settled(c, t, w.replica, w.tenant, w.value);
      SettledInEffect(c, t, w.replica, w.tenant, w.value);
    }
  }

  lemma SettledInEffect<V(!new)>(c: Config<V>, s: System<V>, replica: nat, tenant: string, value: V)
    requires Settled(c, s, replica, tenant, value) && c.decode(Some(value)) == value
    ensures InEffect(c, s, replica, tenant, value)
  {
    hide Settled, GivesOnly;
    forall states, actions | Follows(c, s, states, actions, tenant, value)
      ensures forall i :: 0 <= i < |actions| ==> GivesOnly(states[i], actions[i], replica, tenant, value)
    {
      forall i | 0 <= i < |actions|
        ensures GivesOnly(states[i], actions[i], replica, tenant, value)
      {
        StaysSettled(c, s, states, actions, replica, tenant, value, i);
      }
    }
  }

  /** The setter's own cache update takes no other value away. */
  lemma SameCarried<V>(c: Config<V>, s: System<V>, op: nat)
    requires op in s.writers
    ensures var w, t := s.writers[op], Apply(c, s, CacheWrite(op));
            NoOtherCarried(c, t, w.replica, w.tenant, w.value) <==> NoOtherCarried(c, s, w.replica, w.tenant, w.value)
  {
    var w, t := s.writers[op], Apply(c, s, CacheWrite(op));
    forall o
      ensures ReaderCarriesOther(t, w.replica, w.tenant, w.value, o) <==> ReaderCarriesOther(s, w.replica, w.tenant, w.value, o)
      ensures WriterCarriesOther(t, w.replica, w.tenant, w.value, o) <==> WriterCarriesOther(s, w.replica, w.tenant, w.value, o)
    {
    }
  }

  /** What a getter read is served again from the cache it leaves, until that expires. */
  lemma LateReaderServed<V>(c: Config<V>, s: System<V>, op: nat, next: nat)
    requires op in s.readers && s.readers[op].read.Some? && (next !in s.readers || next == op)
    requires c.ttl > 0 && s.clock < s.readers[op].started + c.ttl
    ensures var r := s.readers[op];
            var s1 := Apply(c, s, FinishGet(op));
            Enabled(s1, Get(next, r.replica, r.tenant)) && Served(s1, Get(next, r.replica, r.tenant)) == r.read
  {
  }

  /** A run in which a change is undone on the very replica that made it: a getter reads the
      old value, the setter stores and caches the new one, the getter finishes, and the next
      getter is given the old value, although the new one is stored. */
  lemma LateReaderUndoesWrite<V>(c: Config<V>, tenant: string, before: V, after: V) returns (states: seq<System<V>>, actions: seq<Action<V>>)
    requires c.ttl > 0 && before != after && c.decode(Some(before)) == before && c.decode(Some(after)) == after
    ensures IsRun(c, states, actions)
    ensures actions == [Get(0, 0, tenant), ReadStored(0), Write(0, 0, tenant, after), CacheWrite(0), FinishGet(0), Get(0, 0, tenant)]
    ensures Served(states[5], actions[5]) == Some(before) && Effective(c, states[5], tenant) == after
  {
    actions := [Get(0, 0, tenant), ReadStored(0), Write(0, 0, tenant, after), CacheWrite(0), FinishGet(0), Get(0, 0, tenant)];
    var s0 := System(0, map[tenant := before], map[], map[], map[]);
    var s1 := Apply(c, s0, actions[0]);
    var s2 := Apply(c, s1, actions[1]);
    assert s2 == s0.(readers := map[0 := Reader(0, tenant, 0, Some(before))]);
    var s3, s4 := WrittenAndCached(c, s2, tenant, after);
    LateReaderServed(c, s4, 0, 0);
    var s5 := Apply(c, s4, actions[4]);
    states := [s0, s1, s2, s3, s4, s5, Apply(c, s5, actions[5])];
  }

  lemma WrittenAndCached<V>(c: Config<V>, s: System<V>, tenant: string, value: V) returns (s1: System<V>, s2: System<V>)
    requires tenant in s.stored && 0 !in s.writers
    ensures s1 == Apply(c, s, Write(0, 0, tenant, value))
    ensures Enabled(s1, CacheWrite(0)) && s2 == Apply(c, s1, CacheWrite(0))
    ensures s2.readers == s.readers && s2.clock == s.clock && s2.stored == s.stored[tenant := value]
  {
    s1 := Apply(c, s, Write(0, 0, tenant, value));
    s2 := Apply(c, s1, CacheWrite(0));
  }

  // ---- The two flags ---------------------------------------------------------------------------------

  const ACTIVE := "active"
  const SUSPENDED := "suspended"
  const DELETED := "deleted"

  /** Unknown tenants, and documents with no valid status, count as active. */
  function DecodeStatus(stored: Option<string>): string {
    if stored.Some? && stored.value in {ACTIVE, SUSPENDED, DELETED} then stored.value else ACTIVE
  }

  function DecodeReadOnly(stored: Option<bool>): bool {
    stored.Some? && stored.value
  }

  datatype Gate = Open | TenantSuspended | TenantDeleted

  /** `assert_tenant_active` on the status it got. */
  function ActiveGate(status: string): Gate {
    if status == ACTIVE then Open else if status == DELETED then TenantDeleted else TenantSuspended
  }

  /** What the control document holds for the tenant, if anything. */
  function StoredValue<V>(s: System<V>, tenant: string): Option<V> {
    if tenant in s.stored then Some(s.stored[tenant]) else None
  }

  /** What a stored status means for a call. */
  function GateFor(stored: Option<string>): Gate {
    if stored == Some("suspended") then TenantSuspended else if stored == Some("deleted") then TenantDeleted else Open
  }

  /** The kill-switch: a suspension or deletion that has stood for the time-to-live plus the
      delay closes the gate to every call that starts afterwards, on every replica, whether
      its status comes from the cache or from the control document. Any other status, and the
      lack of one, leaves it open after the same time. */
  lemma InactiveTenantsAreStopped(ttl: nat, states: seq<System<string>>, actions: seq<Action<string>>, delay: nat,
                                  m: nat, i: nat, gate: Gate)
    requires var c := Config(ttl, DecodeStatus); IsRun(c, states, actions) && Prompt(c, states, actions, delay)
    requires m <= i < |actions| && Answers(states[i], actions[i])
    requires forall k :: m <= k <= i ==> GateFor(StoredValue(states[k], AskedFor(states[i], actions[i]))) == gate
    requires AskedAt(states[i], actions[i]) >= states[m].clock + ttl + delay && AskedAt(states[i], actions[i]) > states[m].clock
    ensures ActiveGate(Served(states[i], actions[i]).value) == gate
  {
    var c, tenant := Config(ttl, DecodeStatus), AskedFor(states[i], actions[i]);
    var status := match gate case TenantSuspended => SUSPENDED case TenantDeleted => DELETED case Open => ACTIVE;
    forall k | m <= k <= i
      ensures Effective(c, states[k], tenant) == status
    {
      assert GateFor(StoredValue(states[k], tenant)) == gate;
    }
    ChangeReachesAll(c, states, actions, delay, m, i, status);
  }

  /** The read-only flag spreads with the same bound. */
  lemma ReadOnlyReachesAll(ttl: nat, states: seq<System<bool>>, actions: seq<Action<bool>>, delay: nat, m: nat, i: nat, on: bool)
    requires var c := Config(ttl, DecodeReadOnly); IsRun(c, states, actions) && Prompt(c, states, actions, delay)
    requires m <= i < |actions| && Answers(states[i], actions[i])
    requires forall k :: m <= k <= i ==> (StoredValue(states[k], AskedFor(states[i], actions[i])) == Some(true)) == on
    requires AskedAt(states[i], actions[i]) >= states[m].clock + ttl + delay && AskedAt(states[i], actions[i]) > states[m].clock
    ensures Served(states[i], actions[i]).value == on
  {
    var c, tenant := Config(ttl, DecodeReadOnly), AskedFor(states[i], actions[i]);
    forall k | m <= k <= i
      ensures Effective(c, states[k], tenant) == on
    {
      assert (StoredValue(states[k], tenant) == Some(true)) == on;
    }
    ChangeReachesAll(c, states, actions, delay, m, i, on);
  }

  lemma CreationStep<V>(c: Config<V>, s: System<V>, a: Action<V>)
    requires Enabled(s, a) && !a.External?
    ensures Apply(c, s, a).stored.Keys == s.stored.Keys
  {
  }

  /** Setters never bring a tenant into being. */
  lemma {:induction false} SettersCreateNoTenant<V>(c: Config<V>, states: seq<System<V>>, actions: seq<Action<V>>, i: nat, j: nat)
    requires IsRun(c, states, actions) && i <= j < |states|
    requires forall k :: i <= k < j ==> !actions[k].External?
    ensures states[j].stored.Keys == states[i].stored.Keys
    decreases j
  {
    hide Enabled, Apply;
    if i < j {
      SettersCreateNoTenant(c, states, actions, i, j - 1);
      assert states[j - 1 + 1] == Apply(c, states[j - 1], actions[j - 1]);
      CreationStep(c, states[j - 1], actions[j - 1]);
    }
  }

  ghost predicate NothingCached<V>(s: System<V>) {
    forall r :: r in s.caches ==> s.caches[r] == map[]
  }

  lemma UncachedStep<V>(c: Config<V>, s: System<V>, a: Action<V>)
    requires Enabled(s, a) && c.ttl == 0 && NothingCached(s)
    ensures NothingCached(Apply(c, s, a))
  {
  }

  /** A getter answered from the cache asks nothing and changes nothing; any other goes on to
      read the control document, and counts its lifetime from now. */
  lemma GetterStarts<V>(c: Config<V>, s: System<V>, op: nat, replica: nat, tenant: string)
    requires op !in s.readers
    ensures var get, cache := Get(op, replica, tenant), if replica in s.caches then s.caches[replica] else map[];
            if tenant in cache && s.clock < cache[tenant].expiry
            then Served(s, get) == Some(cache[tenant].value) && Apply(c, s, get) == s
            else Served(s, get).None? && Apply(c, s, get) == s.(readers := s.readers[op := Reader(replica, tenant, s.clock, None)])
  {
  }

  /** Without a time-to-live nothing is ever cached: every getter reads the control document. */
  lemma {:induction false} NoTtlNoCache<V>(c: Config<V>, states: seq<System<V>>, actions: seq<Action<V>>, i: nat)
    requires IsRun(c, states, actions) && i < |states| && c.ttl == 0
    ensures NothingCached(states[i])
    ensures i < |actions| && actions[i].Get? ==> Served(states[i], actions[i]).None?
  {
    hide Enabled, Apply, NothingCached;
    if i > 0 {
      NoTtlNoCache(c, states, actions, i - 1);
      assert states[i - 1 + 1] == Apply(c, states[i - 1], actions[i - 1]);
      UncachedStep(c, states[i - 1], actions[i - 1]);
    }
    EmptyServesNothing(states[i]);
  }

  lemma EmptyServesNothing<V>(s: System<V>)
    ensures s.caches == map[] ==> NothingCached(s)
    ensures NothingCached(s) ==> forall replica, tenant :: Lookup(CacheOf(s, replica), tenant, s.clock).None?
  {
  }
}
