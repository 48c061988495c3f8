/** Human approval of destructive calls, services/pending_actions.py: an action is created
    pending, decided once by somebody else, and consumed once by the call it was made for.
    Every database operation is one atomic step; requests, decisions, consumptions and the
    collection's expiry index interleave freely. */
module PendingActions {
  import opened Wrappers

  datatype Status = Pending | Approved | Rejected | Consumed

  /** What a call must match to consume an action; `fingerprint` is the hash of the arguments. */
  datatype Call = Call(tenant: string, user: string, server: string, tool: string, fingerprint: string)

  datatype Doc = Doc(call: Call, status: Status, createdAt: int, expiresAt: int,
                     decidedBy: Option<string>, decidedAt: Option<int>, consumedAt: Option<int>)

  datatype ConsumeOutcome = Ok | NotFound | NotApproved | Mismatch | Expired | AlreadyConsumed

  datatype DecisionOutcome = Decided | UnknownAction | NotPending | SelfApprovalForbidden | ActionExpired

  /** `issued` are the ids ever handed out: a random id never comes back. */
  datatype Store = Store(docs: map<string, Doc>, issued: set<string>)

  datatype Action =
    | Create(id: string, call: Call, ttl: int, now: int)
    | Decide(id: string, tenant: string, approver: string, approve: bool, now: int)
    | Consume(id: string, call: Call, now: int)
    | Remove(id: string)                       // the expiry index drops an old document

  function NewDoc(call: Call, ttl: int, now: int): Doc {
    Doc(call, Pending, now, now + (if ttl < 1 then 1 else ttl), None, None, None)
  }

  /** The filter of the deciding update. */
  predicate MayDecide(s: Store, id: string, tenant: string, approver: string, now: int) {
    id in s.docs && s.docs[id].call.tenant == tenant && s.docs[id].status == Pending
    && s.docs[id].expiresAt > now && s.docs[id].call.user != approver
  }

  /** The filter of the consuming update. */
  predicate MayConsume(s: Store, id: string, call: Call, now: int) {
    id in s.docs && s.docs[id].call == call && s.docs[id].status == Approved && s.docs[id].expiresAt > now
  }

  function Decision(doc: Doc, approver: string, approve: bool, now: int): Doc {
    doc.(status := if approve then Approved else Rejected, decidedAt := Some(now), decidedBy := Some(approver))
  }

  predicate Enabled(s: Store, a: Action) {
    a.Create? ==> a.id !in s.issued
  }

  function Apply(s: Store, a: Action): Store
    requires Enabled(s, a)
  {
    match a
    case Create(id, call, ttl, now) => Store(s.docs[id := NewDoc(call, ttl, now)], s.issued + {id})
    case Decide(id, tenant, approver, approve, now) =>
      if MayDecide(s, id, tenant, approver, now) then s.(docs := s.docs[id := Decision(s.docs[id], approver, approve, now)]) else s
    case Consume(id, call, now) =>
      if MayConsume(s, id, call, now) then s.(docs := s.docs[id := s.docs[id].(status := Consumed, consumedAt := Some(now))]) else s
    case Remove(id) => s.(docs := s.docs - {id})
  }

  /** Why a call could not consume, from the document as it reads afterwards. */
  function ExplainConsume(raw: Option<Doc>, call: Call, now: int): ConsumeOutcome {
    match raw
    case None => NotFound
    case Some(doc) =>
      if doc.call.tenant != call.tenant then NotFound
      else if doc.expiresAt <= now then Expired
      else if doc.status == Consumed then AlreadyConsumed
      else if doc.status != Approved then NotApproved
      else if doc.call != call then Mismatch
      else NotApproved
  }

  function ExplainDecision(raw: Option<Doc>, tenant: string, approver: string, now: int): DecisionOutcome {
    match raw
    case None => UnknownAction
    case Some(doc) =>
      if doc.call.tenant != tenant then UnknownAction
      else if doc.call.user == approver then SelfApprovalForbidden
      else if doc.expiresAt <= now then ActionExpired
      else NotPending
  }

  function Read(s: Store, id: string): Option<Doc> {
    if id in s.docs then Some(s.docs[id]) else None
  }

  predicate OfTenant(s: Store, id: string, tenant: string) {
    id in s.docs && s.docs[id].call.tenant == tenant
  }

  /** Each outcome names the first test that the document read after a failed update misses.
      One that misses none, as another step changed it meanwhile, is reported as not approved. */
  lemma ConsumeReasonIsReal(s: Store, id: string, call: Call, now: int)
    ensures match ExplainConsume(Read(s, id), call, now)
      case Ok => false
      case NotFound => id !in s.docs || s.docs[id].call.tenant != call.tenant
      case Expired => OfTenant(s, id, call.tenant) && s.docs[id].expiresAt <= now
      case AlreadyConsumed => OfTenant(s, id, call.tenant) && s.docs[id].expiresAt > now && s.docs[id].status == Consumed
      case NotApproved => OfTenant(s, id, call.tenant) && s.docs[id].expiresAt > now
                          && if s.docs[id].status == Approved then s.docs[id].call == call else s.docs[id].status in {Pending, Rejected}
      case Mismatch => OfTenant(s, id, call.tenant) && s.docs[id].expiresAt > now && s.docs[id].status == Approved && s.docs[id].call != call
  {
  }

  /** The same for decisions; a requester is told so before anything else. */
  lemma DecisionReasonIsReal(s: Store, id: string, tenant: string, approver: string, now: int)
    requires !MayDecide(s, id, tenant, approver, now)
    ensures match ExplainDecision(Read(s, id), tenant, approver, now)
      case Decided => false
      case UnknownAction => id !in s.docs || s.docs[id].call.tenant != tenant
      case SelfApprovalForbidden => OfTenant(s, id, tenant) && s.docs[id].call.user == approver
      case ActionExpired => OfTenant(s, id, tenant) && s.docs[id].call.user != approver && s.docs[id].expiresAt <= now
      case NotPending =>
        OfTenant(s, id, tenant) && s.docs[id].call.user != approver && s.docs[id].expiresAt > now && s.docs[id].status != Pending
  {
  }

  // ---- The service ---------------------------------------------------------------------------

  class PendingActionService {
    var docs: map<string, Doc>
    var issued: set<string>

    ghost function State(): Store
      reads this
    {
      Store(docs, issued)
    }

    constructor ()
      ensures State() == Store(map[], {})
    {
      docs, issued := map[], {};
    }

    method CreatePendingAction(id: string, call: Call, ttlSeconds: int, now: int) returns (doc: Doc)
      requires id !in issued
      modifies this
      ensures State() == Apply(old(State()), Create(id, call, ttlSeconds, now))
      ensures doc == Doc(call, Pending, now, now + (if ttlSeconds >= 1 then ttlSeconds else 1), None, None, None)
      ensures docs == old(docs)[id := doc] && issued == old(issued) + {id}
    {
      var ttl := if ttlSeconds < 1 then 1 else ttlSeconds;
      doc := Doc(call, Pending, now, now + ttl, None, None, None);
      docs := docs[id := doc];
      issued := issued + {id};
    }

    /** The conditional update of `_decide_action`; `None` when no document matched. */
    method TryDecide(id: string, tenant: string, approver: string, approve: bool, now: int) returns (doc: Option<Doc>)
      modifies this
      ensures State() == Apply(old(State()), Decide(id, tenant, approver, approve, now))
      ensures doc.Some? <==> && id in old(docs) && old(docs)[id].call.tenant == tenant && old(docs)[id].call.user != approver
                             && old(docs)[id].status == Pending && now < old(docs)[id].expiresAt
      ensures doc.Some? ==> && docs == old(docs)[id := doc.value]
                            && doc.value == old(docs)[id].(status := if approve then Approved else Rejected,
                                                           decidedBy := Some(approver), decidedAt := Some(now))
      ensures doc.None? ==> docs == old(docs)
    {
      if id !in docs {
        return None;
      }
      var found := docs[id];
      if found.call.tenant != tenant || found.status != Pending || found.expiresAt <= now || found.call.user == approver {
        return None;
      }
      found := found.(status := if approve then Approved else Rejected, decidedAt := Some(now), decidedBy := Some(approver));
      docs := docs[id := found];
      return Some(found);
    }

    /** `_decide_action` with nothing in between its update and its read. */
    method DecideAction(id: string, tenant: string, approver: string, approve: bool, now: int) returns (outcome: DecisionOutcome)
      modifies this
      ensures State() == Apply(old(State()), Decide(id, tenant, approver, approve, now))
      ensures outcome == if MayDecide(old(State()), id, tenant, approver, now) then Decided
                         else ExplainDecision(Read(old(State()), id), tenant, approver, now)
    {
      var doc := TryDecide(id, tenant, approver, approve, now);
      if doc.Some? {
        return Decided;
      }
      return ExplainDecision(if id in docs then Some(docs[id]) else None, tenant, approver, now);
    }

    /** The conditional update of `consume_approved_action`. */
    method TryConsume(id: string, call: Call, now: int) returns (doc: Option<Doc>)
      modifies this
      ensures State() == Apply(old(State()), Consume(id, call, now))
      ensures doc.Some? <==> id in old(docs) && old(docs)[id].call == call && old(docs)[id].status == Approved && now < old(docs)[id].expiresAt
      ensures doc.Some? ==> docs == old(docs)[id := doc.value] && doc.value == old(docs)[id].(status := Consumed, consumedAt := Some(now))
      ensures doc.None? ==> docs == old(docs)
    {
      if id !in docs {
        return None;
      }
      var found := docs[id];
      if found.call != call || found.status != Approved || found.expiresAt <= now {
        return None;
      }
      found := found.(status := Consumed, consumedAt := Some(now));
      docs := docs[id := found];
      return Some(found);
    }

    /** `consume_approved_action` with nothing in between its update and its read. */
    method ConsumeApprovedAction(id: string, call: Call, now: int) returns (outcome: ConsumeOutcome)
      modifies this
      ensures State() == Apply(old(State()), Consume(id, call, now))
      ensures outcome == if MayConsume(old(State()), id, call, now) then Ok else ExplainConsume(Read(old(State()), id), call, now)
    {
      var doc := TryConsume(id, call, now);
      if doc.Some? {
        return Ok;
      }
      return ExplainConsume(if id in docs then Some(docs[id]) else None, call, now);
    }
  }

  // ---- Every interleaving ----------------------------------------------------------------------

  ghost predicate IsRun(states: seq<Store>, actions: seq<Action>) {
    && |states| == |actions| + 1 && states[0] == Store(map[], {})
    && forall i :: 0 <= i < |actions| ==> Enabled(states[i], actions[i]) && states[i + 1] == Apply(states[i], actions[i])
  }

  /** The moves a status can make, in any number of steps. */
  predicate MayBecome(earlier: Status, later: Status) {
    later == earlier || earlier == Pending || (earlier == Approved && later == Consumed)
  }

  lemma StatusStep(s: Store, a: Action, id: string)
    requires Enabled(s, a) && id in s.docs && id in s.issued && id in Apply(s, a).docs
    ensures var d, e := s.docs[id], Apply(s, a).docs[id];
            && e.call == d.call && e.expiresAt == d.expiresAt && e.createdAt == d.createdAt
            && (e.status == d.status || (d.status, e.status) in {(Pending, Approved), (Pending, Rejected), (Approved, Consumed)})
  {
  }

  /** In every run a status moves only from pending to approved or rejected and from approved
      to consumed; what the action was requested for, and until when, never changes; and an
      action that was removed does not come back. */
  lemma {:induction false} StatusMoves(states: seq<Store>, actions: seq<Action>, i: nat, j: nat, id: string)
    requires IsRun(states, actions) && i <= j < |states| && id in states[i].docs && id in states[j].docs
    ensures forall k :: i <= k <= j ==> id in states[k].docs
    ensures var d, e := states[i].docs[id], states[j].docs[id];
            e.call == d.call && e.expiresAt == d.expiresAt && e.createdAt == d.createdAt && MayBecome(d.status, e.status)
    ensures i + 1 == j ==>
              (states[i].docs[id].status, states[j].docs[id].status) in
                {(Pending, Pending), (Approved, Approved), (Rejected, Rejected), (Consumed, Consumed),
                 (Pending, Approved), (Pending, Rejected), (Approved, Consumed)}
    decreases j
  {
    hide Apply, Enabled;
    if i < j {
      IssuedFrom(states, actions, i, j - 1, id);
      NotRecreated(states[j - 1], actions[j - 1], id);
      StatusMoves(states, actions, i, j - 1, id);
      StatusStep(states[j - 1], actions[j - 1], id);
    }
  }

  lemma {:induction false} IssuedFrom(states: seq<Store>, actions: seq<Action>, i: nat, j: nat, id: string)
    requires IsRun(states, actions) && i <= j < |states| && id in states[i].docs
    ensures id in states[j].issued
    decreases j
  {
    if i < j {
      IssuedFrom(states, actions, i, j - 1, id);
      assert states[j] == Apply(states[j - 1], actions[j - 1]);
    } else {
      IdsIssued(states, actions, i);
    }
  }

  lemma NotRecreated(s: Store, a: Action, id: string)
    requires Enabled(s, a) && id in s.issued && id in Apply(s, a).docs
    ensures id in s.docs
  {
  }

  /** Step `i` consumed the action. */
  ghost predicate ConsumedAt(states: seq<Store>, actions: seq<Action>, i: nat, id: string)
    requires IsRun(states, actions)
  {
    i < |actions| && actions[i].Consume? && actions[i].id == id && MayConsume(states[i], id, actions[i].call, actions[i].now)
  }

  /** Step `i` approved the action. */
  ghost predicate ApprovedAt(states: seq<Store>, actions: seq<Action>, i: nat, id: string)
    requires IsRun(states, actions)
  {
    i < |actions| && actions[i].Decide? && actions[i].id == id && actions[i].approve
    && MayDecide(states[i], id, actions[i].tenant, actions[i].approver, actions[i].now)
  }

  ghost predicate CreatedAt(actions: seq<Action>, i: nat, id: string) {
    i < |actions| && actions[i].Create? && actions[i].id == id
  }

  lemma {:induction false} IdsIssued(states: seq<Store>, actions: seq<Action>, i: nat)
    requires IsRun(states, actions) && i < |states|
    ensures states[i].docs.Keys <= states[i].issued
  {
    if i > 0 {
      IdsIssued(states, actions, i - 1);
    }
  }

  /** Gone for good: issued and, if still stored, consumed. */
  predicate Spent(s: Store, id: string) {
    id in s.issued && (id in s.docs ==> s.docs[id].status == Consumed)
  }

  lemma {:induction false} SpentForever(states: seq<Store>, actions: seq<Action>, i: nat, j: nat, id: string)
    requires IsRun(states, actions) && i <= j < |states| && Spent(states[i], id)
    ensures Spent(states[j], id)
    decreases j
  {
    if i < j {
      SpentForever(states, actions, i, j - 1, id);
      assert states[j] == Apply(states[j - 1], actions[j - 1]);
    }
  }

  /** An action is consumed at most once. */
  lemma ConsumedOnce(states: seq<Store>, actions: seq<Action>, i: nat, j: nat, id: string)
    requires IsRun(states, actions) && ConsumedAt(states, actions, i, id) && ConsumedAt(states, actions, j, id)
    ensures i == j
  {
    IdsIssued(states, actions, i);
    IdsIssued(states, actions, j);
    if i < j {
      SpentForever(states, actions, i + 1, j, id);
    } else if j < i {
      SpentForever(states, actions, j + 1, i, id);
    }
  }

  lemma {:induction false} StoredWasCreated(states: seq<Store>, actions: seq<Action>, n: nat, id: string) returns (c: nat)
    requires IsRun(states, actions) && n < |states| && id in states[n].docs
    ensures c < n && CreatedAt(actions, c, id)
    ensures states[n].docs[id].call == actions[c].call
    ensures states[n].docs[id].createdAt == actions[c].now
    ensures states[n].docs[id].expiresAt == actions[c].now + if actions[c].ttl >= 1 then actions[c].ttl else 1
  {
    var a := actions[n - 1];
    assert states[n] == Apply(states[n - 1], a);
    if a.Create? && a.id == id {
      c := n - 1;
    } else {
      c := StoredWasCreated(states, actions, n - 1, id);
    }
  }

  lemma {:induction false} ApprovedWasDecided(states: seq<Store>, actions: seq<Action>, n: nat, id: string) returns (k: nat)
    requires IsRun(states, actions) && n < |states| && id in states[n].docs && states[n].docs[id].status == Approved
    ensures k < n && ApprovedAt(states, actions, k, id)
    ensures id in states[k].docs && states[k].docs[id].call == states[n].docs[id].call
    ensures states[n].docs[id].decidedBy == Some(actions[k].approver)
  {
    var a := actions[n - 1];
    assert states[n] == Apply(states[n - 1], a);
    if a.Decide? && a.id == id && MayDecide(states[n - 1], id, a.tenant, a.approver, a.now) {
      k := n - 1;
    } else {
      k := ApprovedWasDecided(states, actions, n - 1, id);
    }
  }

  /** Whoever consumes an action makes the very call it was created for, before it expires,
      and after somebody other than the requester approved it in time. */
  lemma ConsumptionWasApproved(states: seq<Store>, actions: seq<Action>, i: nat, id: string) returns (c: nat, k: nat)
    requires IsRun(states, actions) && ConsumedAt(states, actions, i, id)
    ensures c < k < i && CreatedAt(actions, c, id) && ApprovedAt(states, actions, k, id)
    ensures actions[i].call == actions[c].call
    ensures actions[k].approver != actions[c].call.user && actions[k].tenant == actions[c].call.tenant
    ensures var expiry := actions[c].now + if actions[c].ttl >= 1 then actions[c].ttl else 1;
            actions[k].now < expiry && actions[i].now < expiry
  {
    k := ApprovedWasDecided(states, actions, i, id);
    c := StoredWasCreated(states, actions, k, id);
    var c' := StoredWasCreated(states, actions, i, id);
    CreatedOnce(states, actions, c, c', id);
  }

  lemma {:induction false} IssuedGrows(states: seq<Store>, actions: seq<Action>, i: nat, j: nat)
    requires IsRun(states, actions) && i <= j < |states|
    ensures states[i].issued <= states[j].issued
    decreases j
  {
    if i < j {
      IssuedGrows(states, actions, i, j - 1);
      assert states[j] == Apply(states[j - 1], actions[j - 1]);
    }
  }

  lemma CreatedOnce(states: seq<Store>, actions: seq<Action>, c: nat, d: nat, id: string)
    requires IsRun(states, actions) && CreatedAt(actions, c, id) && CreatedAt(actions, d, id)
    ensures c == d
  {
    if c < d {
      assert states[c + 1] == Apply(states[c], actions[c]);
      IssuedGrows(states, actions, c + 1, d);
    } else if d < c {
      assert states[d + 1] == Apply(states[d], actions[d]);
      IssuedGrows(states, actions, d + 1, c);
    }
  }

  /** Step `k` rejected the action. */
  ghost predicate RejectedAt(states: seq<Store>, actions: seq<Action>, k: nat, id: string)
    requires IsRun(states, actions)
  {
    k < |actions| && actions[k].Decide? && actions[k].id == id && !actions[k].approve
    && MayDecide(states[k], id, actions[k].tenant, actions[k].approver, actions[k].now)
  }

  lemma {:induction false} RejectedStays(states: seq<Store>, actions: seq<Action>, k: nat, i: nat, id: string)
    requires IsRun(states, actions) && RejectedAt(states, actions, k, id) && k < i < |states|
    ensures id in states[i].issued && (id in states[i].docs ==> states[i].docs[id].status == Rejected)
    decreases i
  {
    assert states[i] == Apply(states[i - 1], actions[i - 1]);
    if i == k + 1 {
      IdsIssued(states, actions, k);
    } else {
      RejectedStays(states, actions, k, i - 1, id);
    }
  }

  /** After a rejection no continuation of the run consumes the action, or approves it. */
  lemma RejectedForGood(states: seq<Store>, actions: seq<Action>, k: nat, i: nat, id: string)
    requires IsRun(states, actions) && RejectedAt(states, actions, k, id) && k < i
    ensures !ConsumedAt(states, actions, i, id) && !ApprovedAt(states, actions, i, id)
  {
    if i < |actions| {
      RejectedStays(states, actions, k, i, id);
    }
  }

  /** A document changes only by a decision or a consumption that goes through, or its removal. */
  lemma {:induction false} KeptMeanwhile(states: seq<Store>, actions: seq<Action>, i: nat, j: nat, id: string)
    requires IsRun(states, actions) && i <= j < |states| && id in states[i].docs
    requires forall k :: i <= k < j ==> && actions[k] != Remove(id) && !ConsumedAt(states, actions, k, id)
                                        && !ApprovedAt(states, actions, k, id) && !RejectedAt(states, actions, k, id)
    ensures id in states[j].docs && states[j].docs[id] == states[i].docs[id]
    decreases j
  {
    if i < j {
      KeptMeanwhile(states, actions, i, j - 1, id);
      IssuedFrom(states, actions, i, j - 1, id);
      var k := j - 1;
      assert states[j] == Apply(states[k], actions[k]);
      assert !ConsumedAt(states, actions, k, id) && !ApprovedAt(states, actions, k, id) && !RejectedAt(states, actions, k, id);
    }
  }

  /** An action that somebody else approves in time lets its call through in time, whatever
      happens in between to other actions. */
  lemma ApprovedCallGoesThrough(states: seq<Store>, actions: seq<Action>, c: nat, k: nat, i: nat, id: string)
    requires IsRun(states, actions) && c < k < i < |actions|
    requires forall n :: c < n < i && n != k ==> actions[n].Create? || actions[n].id != id
    requires actions[c].Create? && actions[c].id == id
    requires actions[k].Decide? && actions[k].id == id && actions[k].approve
    requires actions[k].tenant == actions[c].call.tenant && actions[k].approver != actions[c].call.user
    requires actions[i].Consume? && actions[i].id == id && actions[i].call == actions[c].call
    requires var expiry := actions[c].now + if actions[c].ttl >= 1 then actions[c].ttl else 1;
             actions[k].now < expiry && actions[i].now < expiry
    ensures ApprovedAt(states, actions, k, id) && ConsumedAt(states, actions, i, id)
    ensures id in states[i + 1].docs
    ensures states[i + 1].docs[id] == Doc(actions[c].call, Consumed, actions[c].now,
                                          actions[c].now + (if actions[c].ttl >= 1 then actions[c].ttl else 1),
                                          Some(actions[k].approver), Some(actions[k].now), Some(actions[i].now))
  {
    assert states[c + 1] == Apply(states[c], actions[c]);
    KeptMeanwhile(states, actions, c + 1, k, id);
    assert states[k + 1] == Apply(states[k], actions[k]);
    KeptMeanwhile(states, actions, k + 1, i, id);
    assert states[i + 1] == Apply(states[i], actions[i]);
  }
}
