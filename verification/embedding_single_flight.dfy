/** Single-flight de-duplication of `embed_text` in services/embeddings.py.

    Concurrent calls for the same text share one provider request: the first becomes the
    leader and registers a future, later ones on the same event loop follow it. Each
    stretch between two awaits is one step; calls may be cancelled at any await, and the
    service may be reset or shared between event loops. */
module SingleFlight {
  import opened Wrappers

  type Embedding = seq<real>

  datatype Outcome = Vector(v: Embedding) | Failed(error: string) | Cancelled

  /** A shared future: `Withdrawn` is asyncio's cancelled state, `cause` the call that caused it. */
  datatype FutureState = Pending | Settled(outcome: Outcome) | Withdrawn(cause: nat)

  /** `epoch` counts the resets before the future was registered. */
  datatype Future = Future(text: string, loop: nat, leader: nat, epoch: nat, state: FutureState)

  datatype Stage =
    | Missed                                       // not in the cache; about to take the lock
    | Leading(future: nat)                         // awaiting the provider
    | Leaving(future: nat, outcome: Outcome)       // outcome known, entry not yet cleaned up
    | Led(future: nat, outcome: Outcome)           // leader finished
    | Following(future: nat)                       // awaiting the leader's future
    | Followed(future: nat, outcome: Outcome)      // follower finished
    | Dropped(future: nat)                         // follower cancelled while awaiting
    | Served(v: Embedding)                         // cache hit

  datatype Call = Call(text: string, loop: nat, stage: Stage)

  datatype Flight = Flight(
    cache: map<string, Embedding>,
    inflight: map<string, nat>,
    futures: map<nat, Future>,
    calls: map<nat, Call>,
    epoch: nat)

  datatype Action =
    | Arrive(call: nat, text: string, loop: nat)
    | Enter(call: nat, id: nat)
    | Answer(call: nat, outcome: Outcome)
    | CancelLeader(call: nat)
    | Cleanup(call: nat)
    | Wake(call: nat)
    | CancelFollower(call: nat)
    | Reset
    | Expire(text: string)

  predicate Init(s: Flight) {
    s.cache == map[] && s.inflight == map[] && s.futures == map[] && s.calls == map[]
  }

  predicate Enabled(s: Flight, a: Action) {
    match a
    case Arrive(call, _, _) => call !in s.calls
    case Enter(call, id) => call in s.calls && s.calls[call].stage.Missed? && id !in s.futures
    case Answer(call, outcome) => call in s.calls && s.calls[call].stage.Leading? && s.calls[call].stage.future in s.futures && !outcome.Cancelled?
    case CancelLeader(call) => call in s.calls && s.calls[call].stage.Leading?
    case Cleanup(call) => call in s.calls && s.calls[call].stage.Leaving?
    case Wake(call) => call in s.calls && s.calls[call].stage.Following? && s.calls[call].stage.future in s.futures
                       && !s.futures[s.calls[call].stage.future].state.Pending?
    case CancelFollower(call) => call in s.calls && s.calls[call].stage.Following? && s.calls[call].stage.future in s.futures
    case Reset => true
    case Expire(text) => text in s.cache
  }

  function Moved(s: Flight, call: nat, stage: Stage): Flight
    requires call in s.calls
  {
    s.(calls := s.calls[call := s.calls[call].(stage := stage)])
  }

  /** The future a call may ride along with: registered, on its own loop, not yet done. */
  predicate Joinable(s: Flight, text: string, loop: nat) {
    text in s.inflight && s.inflight[text] in s.futures
    && s.futures[s.inflight[text]].loop == loop && s.futures[s.inflight[text]].state.Pending?
  }

  /** `set_result` and `set_exception`: only a future that is not done takes an outcome. */
  function Settle(s: Flight, f: nat, state: FutureState): Flight
    requires f in s.futures
  {
    if s.futures[f].state.Pending? then s.(futures := s.futures[f := s.futures[f].(state := state)]) else s
  }

  function EnterStep(s: Flight, call: nat, id: nat): Flight
    requires Enabled(s, Enter(call, id))
  {
    var text, loop := s.calls[call].text, s.calls[call].loop;
    if Joinable(s, text, loop) then Moved(s, call, Following(s.inflight[text]))
    else Moved(s.(futures := s.futures[id := Future(text, loop, call, s.epoch, Pending)],
                  inflight := s.inflight[text := id]), call, Leading(id))
  }

  function AnswerStep(s: Flight, call: nat, outcome: Outcome): Flight
    requires Enabled(s, Answer(call, outcome))
  {
    var f := s.calls[call].stage.future;
    var s' := if outcome.Vector? then s.(cache := s.cache[s.calls[call].text := outcome.v]) else s;
    Moved(Settle(s', f, Settled(outcome)), call, Leaving(f, outcome))
  }

  function CleanupStep(s: Flight, call: nat): Flight
    requires Enabled(s, Cleanup(call))
  {
    var stage, text := s.calls[call].stage, s.calls[call].text;
    var s' := Moved(s, call, Led(stage.future, stage.outcome));
    if text in s.inflight && s.inflight[text] == stage.future then s'.(inflight := s.inflight - {text}) else s'
  }

  function Apply(s: Flight, a: Action): Flight
    requires Enabled(s, a)
  {
    match a
    case Arrive(call, text, loop) =>
      s.(calls := s.calls[call := Call(text, loop, if text in s.cache then Served(s.cache[text]) else Missed)])
    case Enter(call, id) => EnterStep(s, call, id)
    case Answer(call, outcome) => AnswerStep(s, call, outcome)
    case CancelLeader(call) => Moved(s, call, Leaving(s.calls[call].stage.future, Cancelled))
    case Cleanup(call) => CleanupStep(s, call)
    case Wake(call) =>
      var f := s.calls[call].stage.future;
      Moved(s, call, Followed(f, if s.futures[f].state.Settled? then s.futures[f].state.outcome else Cancelled))
    case CancelFollower(call) =>
      // Cancelling a task that awaits a bare future cancels that future too.
      var f := s.calls[call].stage.future;
      Moved(Settle(s, f, Withdrawn(call)), call, Dropped(f))
    case Reset => s.(inflight := map[], epoch := s.epoch + 1)
    case Expire(text) => s.(cache := s.cache - {text})
  }

  // ---- The invariant ---------------------------------------------------------------------

  predicate IsLeader(c: Call) {
    c.stage.Leading? || c.stage.Leaving? || c.stage.Led?
  }

  predicate IsFollower(c: Call) {
    c.stage.Following? || c.stage.Followed? || c.stage.Dropped?
  }

  /** The leader's run is over as far as its future is concerned. */
  predicate Finished(c: Call) {
    c.stage.Leaving? || c.stage.Led?
  }

  /** A leader's call and its future tell the same story. */
  ghost predicate LeaderAgrees(c: Call, fut: Future) {
    && c.text == fut.text && c.loop == fut.loop
    && match fut.state
       case Pending => Finished(c) ==> c.stage.outcome == Cancelled
       case Settled(o) => Finished(c) && c.stage.outcome == o && o != Cancelled
       case Withdrawn(_) => true
  }

  ghost predicate FollowerAgrees(c: Call, fut: Future) {
    && c.text == fut.text && c.loop == fut.loop
    && (c.stage.Followed? ==> fut.state == Settled(c.stage.outcome) || (fut.state.Withdrawn? && c.stage.outcome == Cancelled))
  }

  /** Every future has the leader that created it and, if withdrawn, the cancelled follower
      that withdrew it; the outcomes on both sides agree. */
  ghost predicate FuturesLinked(futures: map<nat, Future>, calls: map<nat, Call>) {
    forall f :: f in futures ==>
      && futures[f].leader in calls
      && IsLeader(calls[futures[f].leader]) && calls[futures[f].leader].stage.future == f
      && LeaderAgrees(calls[futures[f].leader], futures[f])
      && (futures[f].state.Withdrawn? ==> futures[f].state.cause in calls && calls[futures[f].state.cause].stage == Dropped(f))
  }

  ghost predicate CallsLinked(futures: map<nat, Future>, calls: map<nat, Call>) {
    forall c :: c in calls ==>
      && (IsLeader(calls[c]) ==> calls[c].stage.future in futures && futures[calls[c].stage.future].leader == c)
      && (IsFollower(calls[c]) ==> calls[c].stage.future in futures && FollowerAgrees(calls[c], futures[calls[c].stage.future]))
  }

  /** Registered futures belong to the current epoch and to leaders not yet cleaned up. */
  ghost predicate Registered(inflight: map<string, nat>, futures: map<nat, Future>, calls: map<nat, Call>, epoch: nat) {
    && (forall text :: text in inflight ==>
          && inflight[text] in futures && futures[inflight[text]].text == text
          && futures[inflight[text]].epoch == epoch
          && futures[inflight[text]].leader in calls && !calls[futures[inflight[text]].leader].stage.Led?)
    && (forall f :: f in futures ==> futures[f].epoch <= epoch)
  }

  ghost predicate Inv(s: Flight) {
    && FuturesLinked(s.futures, s.calls)
    && CallsLinked(s.futures, s.calls)
    && Registered(s.inflight, s.futures, s.calls, s.epoch)
  }

  lemma ArriveKeeps(s: Flight, call: nat, text: string, loop: nat)
    requires Inv(s) && Enabled(s, Arrive(call, text, loop))
    ensures Inv(Apply(s, Arrive(call, text, loop)))
  {
  }

  lemma EnterLinked(s: Flight, call: nat, id: nat)
    requires FuturesLinked(s.futures, s.calls) && CallsLinked(s.futures, s.calls) && Enabled(s, Enter(call, id))
    requires Joinable(s, s.calls[call].text, s.calls[call].loop) ==>
               s.futures[s.inflight[s.calls[call].text]].text == s.calls[call].text
    ensures FuturesLinked(EnterStep(s, call, id).futures, EnterStep(s, call, id).calls)
    ensures CallsLinked(EnterStep(s, call, id).futures, EnterStep(s, call, id).calls)
  {
  }

  lemma EnterKeeps(s: Flight, call: nat, id: nat)
    requires Inv(s) && Enabled(s, Enter(call, id))
    ensures Inv(EnterStep(s, call, id))
  {
    hide FuturesLinked, CallsLinked;
    EnterLinked(s, call, id);
  }

  lemma AnswerFutures(s: Flight, call: nat, outcome: Outcome)
    requires FuturesLinked(s.futures, s.calls) && Enabled(s, Answer(call, outcome))
    requires s.futures[s.calls[call].stage.future].leader == call
    ensures FuturesLinked(AnswerStep(s, call, outcome).futures, AnswerStep(s, call, outcome).calls)
  {
  }

  lemma AnswerCalls(s: Flight, call: nat, outcome: Outcome)
    requires CallsLinked(s.futures, s.calls) && Enabled(s, Answer(call, outcome))
    requires s.futures[s.calls[call].stage.future].leader == call
    ensures CallsLinked(AnswerStep(s, call, outcome).futures, AnswerStep(s, call, outcome).calls)
  {
  }

  lemma AnswerKeeps(s: Flight, call: nat, outcome: Outcome)
    requires Inv(s) && Enabled(s, Answer(call, outcome))
    ensures Inv(AnswerStep(s, call, outcome))
  {
    hide FuturesLinked;
    assert s.futures[s.calls[call].stage.future].leader == call;
    AnswerFutures(s, call, outcome);
    AnswerCalls(s, call, outcome);
  }

  lemma CancelLeaderKeeps(s: Flight, call: nat)
    requires Inv(s) && Enabled(s, CancelLeader(call))
    ensures Inv(Apply(s, CancelLeader(call)))
  {
  }

  lemma CleanupKeeps(s: Flight, call: nat)
    requires Inv(s) && Enabled(s, Cleanup(call))
    ensures Inv(CleanupStep(s, call))
  {
  }

  lemma WakeKeeps(s: Flight, call: nat)
    requires Inv(s) && Enabled(s, Wake(call))
    ensures Inv(Apply(s, Wake(call)))
  {
  }

  lemma CancelFollowerLinked(s: Flight, call: nat)
    requires FuturesLinked(s.futures, s.calls) && CallsLinked(s.futures, s.calls) && Enabled(s, CancelFollower(call))
    ensures FuturesLinked(Apply(s, CancelFollower(call)).futures, Apply(s, CancelFollower(call)).calls)
    ensures CallsLinked(Apply(s, CancelFollower(call)).futures, Apply(s, CancelFollower(call)).calls)
  {
  }

  lemma CancelFollowerKeeps(s: Flight, call: nat)
    requires Inv(s) && Enabled(s, CancelFollower(call))
    ensures Inv(Apply(s, CancelFollower(call)))
  {
    hide FuturesLinked, CallsLinked;
    CancelFollowerLinked(s, call);
  }

  lemma StepKeeps(s: Flight, a: Action)
    requires Inv(s) && Enabled(s, a)
    ensures Inv(Apply(s, a))
  {
    match a {
      case Arrive(call, text, loop) => ArriveKeeps(s, call, text, loop);
      case Enter(call, id) => EnterKeeps(s, call, id);
      case Answer(call, outcome) => AnswerKeeps(s, call, outcome);
      case CancelLeader(call) => CancelLeaderKeeps(s, call);
      case Cleanup(call) => CleanupKeeps(s, call);
      case Wake(call) => WakeKeeps(s, call);
      case CancelFollower(call) => CancelFollowerKeeps(s, call);
      case Reset =>
      case Expire(_) =>
    }
  }

  // ---- What holds in every interleaving -----------------------------------------------------

  ghost predicate IsRun(states: seq<Flight>, actions: seq<Action>) {
    && |states| == |actions| + 1 && Init(states[0])
    && forall i :: 0 <= i < |actions| ==> Enabled(states[i], actions[i]) && states[i + 1] == Apply(states[i], actions[i])
  }

  lemma {:induction false} RunKeeps(states: seq<Flight>, actions: seq<Action>, i: nat)
    requires IsRun(states, actions) && i < |states|
    ensures Inv(states[i])
  {
    if i > 0 {
      RunKeeps(states, actions, i - 1);
      StepKeeps(states[i - 1], actions[i - 1]);
    }
  }

  /** A follower that was not itself cancelled ends with its leader's exact outcome, unless
      some other follower was cancelled first: that withdraws the shared future, and then the
      bystanders are cancelled too. */
  lemma FollowerOutcome(states: seq<Flight>, actions: seq<Action>, i: nat, c: nat)
    requires IsRun(states, actions) && i < |states| && c in states[i].calls && states[i].calls[c].stage.Followed?
    ensures var s, f := states[i], states[i].calls[c].stage.future;
            && f in s.futures && s.futures[f].leader in s.calls && s.futures[f].text == s.calls[c].text
            && var leader := s.calls[s.futures[f].leader];
               if s.futures[f].state.Withdrawn?
               then s.calls[c].stage.outcome == Cancelled
                    && s.futures[f].state.cause in s.calls && s.calls[s.futures[f].state.cause].stage == Dropped(f)
               else Finished(leader) && leader.stage.outcome == s.calls[c].stage.outcome && leader.stage.outcome != Cancelled
  {
    RunKeeps(states, actions, i);
  }

  /** No follower waits on a future whose leader is done, except when the leader was
      cancelled: exactly then the future is left pending. */
  lemma WaitsOnLiveLeader(states: seq<Flight>, actions: seq<Action>, i: nat, c: nat)
    requires IsRun(states, actions) && i < |states| && c in states[i].calls && states[i].calls[c].stage.Following?
    ensures var s, f := states[i], states[i].calls[c].stage.future;
            && f in s.futures && s.futures[f].leader in s.calls
            && var leader := s.calls[s.futures[f].leader];
               Finished(leader) && s.futures[f].state.Pending?
               <==> Finished(leader) && leader.stage.outcome == Cancelled && !s.futures[f].state.Withdrawn?
  {
    RunKeeps(states, actions, i);
  }

  /** A cancelled leader strands its followers: `except Exception` does not catch the
      cancellation, so nothing but cancelling a follower ever completes the future. */
  lemma StrandedUntilDropped(s: Flight, a: Action, f: nat)
    requires Inv(s) && Enabled(s, a) && f in s.futures && s.futures[f].state.Pending?
    requires Finished(s.calls[s.futures[f].leader])
    ensures f in Apply(s, a).futures && s.futures[f].leader in Apply(s, a).calls
    ensures Apply(s, a).futures[f].leader == s.futures[f].leader
    ensures Finished(Apply(s, a).calls[s.futures[f].leader])
    ensures Apply(s, a).futures[f].state.Pending? <==> !(a.CancelFollower? && s.calls[a.call].stage.future == f)
    ensures a.Wake? ==> s.calls[a.call].stage.future != f
  {
    assert !a.Answer? || s.calls[a.call].stage.future != f;
  }

  /** The step lets a call for the same text register a future of its own in place of `f`,
      which is done already or belongs to another loop. */
  predicate Supersedes(s: Flight, a: Action, f: nat)
    requires f in s.futures
  {
    && a.Enter? && a.call in s.calls && s.calls[a.call].text == s.futures[f].text
    && (!s.futures[f].state.Pending? || s.futures[f].loop != s.calls[a.call].loop)
  }

  /** An entry disappears only when its own leader cleans up or on a reset, and is replaced
      only when its future is done or belongs to another loop. */
  lemma OwnEntryOnly(s: Flight, a: Action, text: string)
    requires Inv(s) && Enabled(s, a) && text in s.inflight
    ensures var f, t := s.inflight[text], Apply(s, a);
            && f in s.futures
            && (text !in t.inflight ==> a.Reset? || (a.Cleanup? && a.call == s.futures[f].leader))
            && (text in t.inflight ==> t.inflight[text] == f || Supersedes(s, a, f))
  {
  }

  /** Its provider request is still out and nobody has completed it. */
  ghost predicate Live(s: Flight, f: nat) {
    f in s.futures && s.futures[f].state.Pending?
    && s.futures[f].leader in s.calls && s.calls[s.futures[f].leader].stage.Leading?
  }

  /** Two live futures for one text, with no reset between their registrations. */
  ghost predicate Rivals(s: Flight, text: string, f: nat, g: nat) {
    && f != g && Live(s, f) && Live(s, g)
    && s.futures[f].text == text == s.futures[g].text && s.futures[f].epoch == s.futures[g].epoch
  }

  ghost predicate NoRivals(s: Flight, text: string) {
    forall f, g :: !Rivals(s, text, f, g)
  }

  /** A live future of the current epoch is the one registered for its text. */
  ghost predicate LiveRegistered(s: Flight, text: string) {
    forall f :: Live(s, f) && s.futures[f].text == text && s.futures[f].epoch == s.epoch ==>
      text in s.inflight && s.inflight[text] == f
  }

  ghost predicate Solo(s: Flight, text: string) {
    LiveRegistered(s, text) && NoRivals(s, text)
  }

  /** The live future `f` of this text is on another loop than the call that enters now. */
  ghost predicate OutOfReach(s: Flight, a: Action, text: string, f: nat) {
    && a.Enter? && a.call in s.calls && s.calls[a.call].text == text
    && Live(s, f) && s.futures[f].text == text && s.futures[f].epoch == s.epoch
    && s.futures[f].loop != s.calls[a.call].loop
  }

  /** The step takes a call of this text past a live future it cannot join. */
  ghost predicate Splits(s: Flight, a: Action, text: string) {
    exists f :: OutOfReach(s, a, text, f)
  }

  /** No step brings a live future into being but `Enter`. */
  lemma LiveBefore(s: Flight, a: Action, f: nat)
    requires Inv(s) && Enabled(s, a) && Live(Apply(s, a), f) && !(a.Enter? && a.id == f)
    ensures Live(s, f)
    ensures Apply(s, a).futures[f].text == s.futures[f].text && Apply(s, a).futures[f].epoch == s.futures[f].epoch
  {
    hide Registered;
  }

  /** Entering past a live future makes a rival of it. */
  lemma SplitMakesRivals(s: Flight, a: Action, text: string, f: nat)
    requires Inv(s) && Enabled(s, a) && Solo(s, text) && OutOfReach(s, a, text, f)
    ensures Rivals(Apply(s, a), text, f, a.id)
  {
    hide FuturesLinked, CallsLinked, NoRivals;
    assert s.inflight[text] == f && !Joinable(s, text, s.calls[a.call].loop);
  }

  /** A live future of the current epoch stays registered unless a call enters past it. */
  lemma EntryStays(s: Flight, a: Action, text: string, f: nat)
    requires Inv(s) && Enabled(s, a) && LiveRegistered(s, text) && !Splits(s, a, text)
    requires Live(s, f) && Live(Apply(s, a), f) && s.futures[f].text == text && s.futures[f].epoch == Apply(s, a).epoch
    ensures text in Apply(s, a).inflight && Apply(s, a).inflight[text] == f
  {
    assert !a.Reset?;
    OwnEntryOnly(s, a, text);
    assert !OutOfReach(s, a, text, f);
  }

  /** A future registered now finds no live one of its text and epoch. */
  lemma NewcomerAlone(s: Flight, a: Action, text: string, f: nat)
    requires Inv(s) && Enabled(s, a) && LiveRegistered(s, text) && !Splits(s, a, text)
    requires a.Enter? && a.id != f && Live(s, f) && s.futures[f].text == text && s.futures[f].epoch == s.epoch
    ensures a.id in Apply(s, a).futures ==> Apply(s, a).futures[a.id].text != text
  {
    assert !OutOfReach(s, a, text, f);
  }

  lemma SoloKept(s: Flight, a: Action, text: string)
    requires Inv(s) && Enabled(s, a) && Solo(s, text) && !Splits(s, a, text)
    ensures Solo(Apply(s, a), text)
  {
    hide FuturesLinked, CallsLinked, Splits;
    var t := Apply(s, a);
    forall f | Live(t, f) && t.futures[f].text == text && t.futures[f].epoch == t.epoch
      ensures text in t.inflight && t.inflight[text] == f
    {
      if !(a.Enter? && a.id == f) {
        LiveBefore(s, a, f);
        EntryStays(s, a, text, f);
      }
    }
    forall f, g
      ensures !Rivals(t, text, f, g)
    {
      if Rivals(t, text, f, g) {
        RivalsBefore(s, a, text, f, g);
      }
    }
  }

  lemma RivalsBefore(s: Flight, a: Action, text: string, f: nat, g: nat)
    requires Inv(s) && Enabled(s, a) && LiveRegistered(s, text) && !Splits(s, a, text)
    requires Rivals(Apply(s, a), text, f, g)
    ensures Rivals(s, text, f, g)
  {
    hide FuturesLinked, CallsLinked, Splits, LiveRegistered;
    if a.Enter? && a.id == f {
      LiveBefore(s, a, g);
      NewcomerAlone(s, a, text, g);
    } else if a.Enter? && a.id == g {
      LiveBefore(s, a, f);
      NewcomerAlone(s, a, text, f);
    } else {
      LiveBefore(s, a, f);
      LiveBefore(s, a, g);
    }
  }

  /** One step: sharing survives exactly if no call enters past a live future of its text
      that another loop owns. */
  lemma SoloExactly(s: Flight, a: Action, text: string)
    requires Inv(s) && Enabled(s, a) && Solo(s, text)
    ensures Solo(Apply(s, a), text) <==> !Splits(s, a, text)
  {
    hide Solo, Inv;
    if Splits(s, a, text) {
      var f :| OutOfReach(s, a, text, f);
      SplitMakesRivals(s, a, text, f);
      NotSolo(Apply(s, a), text, f, a.id);
    } else {
      SoloKept(s, a, text);
    }
  }

  lemma SplitWitness(s: Flight, a: Action, text: string) returns (f: nat)
    requires Splits(s, a, text)
    ensures OutOfReach(s, a, text, f)
  {
    f :| OutOfReach(s, a, text, f);
  }

  lemma NotSolo(s: Flight, text: string, f: nat, g: nat)
    requires Rivals(s, text, f, g)
    ensures !Solo(s, text)
  {
  }

  lemma {:induction false} SoloUntilSplit(states: seq<Flight>, actions: seq<Action>, text: string, i: nat)
    requires IsRun(states, actions) && i < |states|
    requires forall k :: 0 <= k < i ==> !Splits(states[k], actions[k], text)
    ensures Solo(states[i], text)
  {
    if i > 0 {
      hide Solo, Inv, Splits;
      SoloUntilSplit(states, actions, text, i - 1);
      RunKeeps(states, actions, i - 1);
      SoloExactly(states[i - 1], actions[i - 1], text);
    }
  }

  /** The first call that enters past a live future. */
  lemma {:induction false} FirstSplit(states: seq<Flight>, actions: seq<Action>, text: string, k: nat) returns (first: nat)
    requires IsRun(states, actions) && k < |actions| && Splits(states[k], actions[k], text)
    ensures first <= k && Splits(states[first], actions[first], text)
    ensures forall j :: 0 <= j < first ==> !Splits(states[j], actions[j], text)
  {
    hide Splits;
    first := k;
    if j: nat :| j < k && Splits(states[j], actions[j], text) {
      first := FirstSplit(states, actions, text, j);
    }
  }

  /** A text never has two live futures between resets exactly if no call of that text ever
      enters while a live one is on another event loop. */
  lemma AtMostOneLeader(states: seq<Flight>, actions: seq<Action>, text: string)
    requires IsRun(states, actions)
    ensures (forall i :: 0 <= i < |states| ==> NoRivals(states[i], text))
       <==> (forall k :: 0 <= k < |actions| ==> !Splits(states[k], actions[k], text))
  {
    hide Splits, Rivals, LiveRegistered, Inv;
    if k :| 0 <= k < |actions| && Splits(states[k], actions[k], text) {
      var first := FirstSplit(states, actions, text, k);
      SoloUntilSplit(states, actions, text, first);
      RunKeeps(states, actions, first);
      var f := SplitWitness(states[first], actions[first], text);
      SplitMakesRivals(states[first], actions[first], text, f);
      assert !NoRivals(states[first + 1], text);
    } else {
      forall i | 0 <= i < |states|
        ensures NoRivals(states[i], text)
      {
        SoloUntilSplit(states, actions, text, i);
      }
    }
  }

  ghost predicate OnLoop(s: Flight, text: string, loop: nat) {
    forall c :: c in s.calls && s.calls[c].text == text ==> s.calls[c].loop == loop
  }

  lemma OnLoopStep(s: Flight, a: Action, text: string, loop: nat)
    requires Enabled(s, a) && OnLoop(s, text, loop) && (a.Arrive? && a.text == text ==> a.loop == loop)
    ensures OnLoop(Apply(s, a), text, loop)
  {
  }

  lemma {:induction false} OnLoopKeeps(states: seq<Flight>, actions: seq<Action>, text: string, loop: nat, i: nat)
    requires IsRun(states, actions) && i < |states|
    requires forall k :: 0 <= k < |actions| && actions[k].Arrive? && actions[k].text == text ==> actions[k].loop == loop
    ensures OnLoop(states[i], text, loop)
  {
    if i > 0 {
      hide OnLoop, Apply, Enabled;
      OnLoopKeeps(states, actions, text, loop, i - 1);
      assert states[i - 1 + 1] == Apply(states[i - 1], actions[i - 1]);
      OnLoopStep(states[i - 1], actions[i - 1], text, loop);
    }
  }

  /** In particular sharing is complete for a text all of whose calls run on one loop. */
  lemma OneLoopOneLeader(states: seq<Flight>, actions: seq<Action>, text: string, loop: nat)
    requires IsRun(states, actions)
    requires forall k :: 0 <= k < |actions| && actions[k].Arrive? && actions[k].text == text ==> actions[k].loop == loop
    ensures forall i :: 0 <= i < |states| ==> NoRivals(states[i], text)
  {
    hide NoRivals, Enabled, Apply;
    forall k | 0 <= k < |actions|
      ensures !Splits(states[k], actions[k], text)
    {
      RunKeeps(states, actions, k);
      OnLoopKeeps(states, actions, text, loop, k);
    }
    AtMostOneLeader(states, actions, text);
  }

  const Empty := Flight(map[], map[], map[], map[], 0)

  /** Two event loops defeat the sharing: a call on the second loop takes over the entry of
      the first, so a third call, back on the first loop, asks the provider again. */
  lemma TwoLoopsTwoLeaders() returns (states: seq<Flight>, actions: seq<Action>)
    ensures IsRun(states, actions) && forall a :: a in actions ==> !a.Reset?
    ensures var s := states[|actions|];
            Rivals(s, "t", 0, 2) && s.futures[0].loop == s.futures[2].loop
  {
    actions := [Arrive(0, "t", 0), Enter(0, 0), Arrive(1, "t", 1), Enter(1, 1), Arrive(2, "t", 0), Enter(2, 2)];
    var s1 := Apply(Empty, actions[0]);
    var s2 := Apply(s1, actions[1]);
    var s3 := Apply(s2, actions[2]);
    assert s3.futures == map[0 := Future("t", 0, 0, 0, Pending)] && s3.inflight == map["t" := 0];
    var s4 := Apply(s3, actions[3]);
    var s5 := Apply(s4, actions[4]);
    assert s5.inflight["t"] == 1 && s5.futures[1] == Future("t", 1, 1, 0, Pending) && s5.futures[0] == s3.futures[0];
    var s6 := Apply(s5, actions[5]);
    states := [Empty, s1, s2, s3, s4, s5, s6];
  }

  /** Cancelling the leader leaves its follower waiting on a future nobody will complete. */
  lemma CancelledLeaderStrands() returns (states: seq<Flight>, actions: seq<Action>)
    ensures IsRun(states, actions)
    ensures var s := states[|actions|];
            && 1 in s.calls && s.calls[1].stage == Following(0)
            && 0 in s.futures && s.futures[0].state.Pending? && s.futures[0].leader in s.calls
            && s.calls[s.futures[0].leader].stage == Led(0, Cancelled)
  {
    actions := [Arrive(0, "t", 0), Enter(0, 0), Arrive(1, "t", 0), Enter(1, 1), CancelLeader(0), Cleanup(0)];
    var s1 := Apply(Empty, actions[0]);
    var s2 := Apply(s1, actions[1]);
    var s3 := Apply(s2, actions[2]);
    assert s3.futures == map[0 := Future("t", 0, 0, 0, Pending)] && s3.inflight == map["t" := 0];
    var s4 := Apply(s3, actions[3]);
    var s5 := Apply(s4, actions[4]);
    assert s5.calls[0].stage == Leaving(0, Cancelled) && s5.calls[1].stage == Following(0) && s5.futures == s3.futures;
    var s6 := Apply(s5, actions[5]);
    states := [Empty, s1, s2, s3, s4, s5, s6];
  }

  // ---- Every vector served is the provider's -----------------------------------------------

  ghost function NewAnswers(s: Flight, a: Action): set<(string, Embedding)>
    requires Enabled(s, a)
  {
    if a.Answer? && a.outcome.Vector? then {(s.calls[a.call].text, a.outcome.v)} else {}
  }

  /** The (text, vector) pairs the provider has returned so far. */
  ghost function Answers(states: seq<Flight>, actions: seq<Action>, n: nat): set<(string, Embedding)>
    requires IsRun(states, actions) && n <= |actions|
  {
    if n == 0 then {} else Answers(states, actions, n - 1) + NewAnswers(states[n - 1], actions[n - 1])
  }

  ghost predicate Known(text: string, o: Outcome, answers: set<(string, Embedding)>) {
    o.Vector? ==> (text, o.v) in answers
  }

  ghost predicate AllKnown(s: Flight, answers: set<(string, Embedding)>) {
    && (forall text :: text in s.cache ==> (text, s.cache[text]) in answers)
    && (forall f :: f in s.futures && s.futures[f].state.Settled? ==> Known(s.futures[f].text, s.futures[f].state.outcome, answers))
    && (forall c :: c in s.calls ==>
          && (s.calls[c].stage.Leaving? || s.calls[c].stage.Led? || s.calls[c].stage.Followed? ==> Known(s.calls[c].text, s.calls[c].stage.outcome, answers))
          && (s.calls[c].stage.Served? ==> (s.calls[c].text, s.calls[c].stage.v) in answers))
  }

  lemma AnswerKnown(s: Flight, call: nat, outcome: Outcome, answers: set<(string, Embedding)>)
    requires CallsLinked(s.futures, s.calls) && Enabled(s, Answer(call, outcome)) && AllKnown(s, answers)
    requires s.futures[s.calls[call].stage.future].text == s.calls[call].text
    ensures AllKnown(AnswerStep(s, call, outcome), answers + NewAnswers(s, Answer(call, outcome)))
  {
    hide CallsLinked;
  }

  lemma OtherKnown(s: Flight, a: Action, answers: set<(string, Embedding)>)
    requires CallsLinked(s.futures, s.calls) && Enabled(s, a) && AllKnown(s, answers) && !a.Answer?
    ensures AllKnown(Apply(s, a), answers)
  {
  }

  lemma KnownStep(s: Flight, a: Action, answers: set<(string, Embedding)>)
    requires Inv(s) && Enabled(s, a) && AllKnown(s, answers)
    ensures AllKnown(Apply(s, a), answers + NewAnswers(s, a))
  {
    hide AllKnown, Registered;
    if a.Answer? {
      AnswerKnown(s, a.call, a.outcome, answers);
    } else {
      OtherKnown(s, a, answers);
      assert answers + {} == answers;
    }
  }

  /** Whoever gets a vector for a text, from the cache, as leader or as follower, gets one
      the provider returned for that text. */
  lemma {:induction false} ServedVectorsAreAnswers(states: seq<Flight>, actions: seq<Action>, n: nat)
    requires IsRun(states, actions) && n <= |actions|
    ensures AllKnown(states[n], Answers(states, actions, n))
  {
    if n > 0 {
      hide AllKnown, Inv;
      ServedVectorsAreAnswers(states, actions, n - 1);
      RunKeeps(states, actions, n - 1);
      KnownStep(states[n - 1], actions[n - 1], Answers(states, actions, n - 1));
    } else {
      assert AllKnown(states[0], {});
    }
  }

  // ---- What an answer and a reset do for the calls that follow -------------------------------

  lemma AnswerStays(s: Flight, a: Action, c: nat, o: Outcome)
    requires Enabled(s, a) && c in s.calls && Finished(s.calls[c]) && s.calls[c].stage.outcome == o
    ensures var t := Apply(s, a); c in t.calls && Finished(t.calls[c]) && t.calls[c].stage.outcome == o
    ensures Apply(s, a).calls[c].stage.future == s.calls[c].stage.future
  {
  }

  lemma SettledStays(s: Flight, a: Action, f: nat, o: Outcome)
    requires Enabled(s, a) && f in s.futures && s.futures[f].state == Settled(o)
    ensures f in Apply(s, a).futures && Apply(s, a).futures[f].state == Settled(o)
  {
  }

  lemma AnswerTaken(s: Flight, c: nat, o: Outcome)
    requires Enabled(s, Answer(c, o))
    ensures var t, f := Apply(s, Answer(c, o)), s.calls[c].stage.future;
            && c in t.calls && Finished(t.calls[c]) && t.calls[c].stage.outcome == o && t.calls[c].stage.future == f
            && f in t.futures && (s.futures[f].state == Pending ==> t.futures[f].state == Settled(o))
  {
  }

  lemma FutureStays(s: Flight, a: Action, f: nat)
    requires Enabled(s, a) && f in s.futures
    ensures f in Apply(s, a).futures && Apply(s, a).futures[f].epoch == s.futures[f].epoch
  {
  }

  /** What the provider answers is from then on the outcome of the leader and, if no follower
      withdrew it before, that of their future. */
  lemma {:induction false} AnswerDecides(states: seq<Flight>, actions: seq<Action>, k: nat, n: nat)
    requires IsRun(states, actions) && k < |actions| && actions[k].Answer? && k < n < |states|
    ensures var c, o := actions[k].call, actions[k].outcome;
            && c in states[k].calls && states[k].calls[c].stage.Leading?
            && c in states[n].calls && Finished(states[n].calls[c]) && states[n].calls[c].stage.outcome == o
            && var f := states[k].calls[c].stage.future;
               && states[n].calls[c].stage.future == f && f in states[k].futures && f in states[n].futures
               && (states[k].futures[f].state == Pending ==> states[n].futures[f].state == Settled(o))
    decreases n
  {
    hide Apply;
    var c, f := actions[k].call, states[k].calls[actions[k].call].stage.future;
    if n == k + 1 {
      AnswerTaken(states[k], c, actions[k].outcome);
    } else {
      var m := n - 1;
      AnswerDecides(states, actions, k, m);
      AnswerStays(states[m], actions[m], c, actions[k].outcome);
      FutureStays(states[m], actions[m], f);
      if states[k].futures[f].state == Pending {
        SettledStays(states[m], actions[m], f, actions[k].outcome);
      }
      assert states[m + 1] == Apply(states[m], actions[m]);
    }
  }

  /** The step caches a vector for the text. */
  ghost predicate Caches(s: Flight, a: Action, text: string) {
    a.Answer? && a.outcome.Vector? && a.call in s.calls && s.calls[a.call].text == text
  }

  lemma {:induction false} StillCached(states: seq<Flight>, actions: seq<Action>, k: nat, n: nat, text: string)
    requires IsRun(states, actions) && k < n < |states| && Caches(states[k], actions[k], text)
    requires forall j :: k < j < n ==> actions[j] != Expire(text) && !Caches(states[j], actions[j], text)
    ensures text in states[n].cache && states[n].cache[text] == actions[k].outcome.v
    decreases n
  {
    var m := n - 1;
    assert states[n] == Apply(states[m], actions[m]);
    if m > k {
      StillCached(states, actions, k, m, text);
      assert actions[m] != Expire(text) && !Caches(states[m], actions[m], text);
    }
  }

  /** A call that arrives after a good answer for its text, before that leaves the cache, is
      served the latest such answer at once. */
  lemma AnswerIsServed(states: seq<Flight>, actions: seq<Action>, k: nat, n: nat)
    requires IsRun(states, actions) && k < n < |actions| && actions[n].Arrive?
    requires Caches(states[k], actions[k], actions[n].text)
    requires forall j :: k < j < n ==> actions[j] != Expire(actions[n].text) && !Caches(states[j], actions[j], actions[n].text)
    ensures actions[n].call in states[n + 1].calls
    ensures states[n + 1].calls[actions[n].call].stage == Served(actions[k].outcome.v)
  {
    StillCached(states, actions, k, n, actions[n].text);
    assert states[n + 1] == Apply(states[n], actions[n]);
  }

  lemma {:induction false} EpochsGrow(states: seq<Flight>, actions: seq<Action>, i: nat, j: nat)
    requires IsRun(states, actions) && i <= j < |states|
    ensures states[i].epoch <= states[j].epoch
    ensures forall f :: f in states[i].futures ==> f in states[j].futures && states[j].futures[f].epoch == states[i].futures[f].epoch
    decreases j
  {
    if i < j {
      var m := j - 1;
      EpochsGrow(states, actions, i, m);
      assert states[m + 1] == Apply(states[m], actions[m]);
      forall f | f in states[m].futures
        ensures f in states[j].futures && states[j].futures[f].epoch == states[m].futures[f].epoch
      {
        hide Apply, Enabled;
        FutureStays(states[m], actions[m], f);
      }
    }
  }

  /** After a reset no call joins a future that was there before it. */
  lemma NoneJoinsAcrossReset(states: seq<Flight>, actions: seq<Action>, r: nat, k: nat, f: nat)
    requires IsRun(states, actions) && r < k < |actions| && actions[r].Reset? && actions[k].Enter?
    requires actions[k].call in states[k + 1].calls && states[k + 1].calls[actions[k].call].stage == Following(f)
    ensures f !in states[r].futures
  {
    RunKeeps(states, actions, r);
    RunKeeps(states, actions, k);
    assert states[r + 1] == Apply(states[r], actions[r]);
    EpochsGrow(states, actions, r, k);
    EpochsGrow(states, actions, r + 1, k);
    assert states[k + 1] == Apply(states[k], actions[k]);
  }

  // ---- The service itself ----------------------------------------------------------------

  /** The steps of `embed_text` on the service's fields; `futures` and `calls` stand for the
      asyncio objects and the local variables of the suspended calls. */
  class EmbeddingService {
    var cache: map<string, Embedding>
    var inflight: map<string, nat>
    var futures: map<nat, Future>
    var calls: map<nat, Call>
    var epoch: nat

    ghost function State(): Flight
      reads this
    {
      Flight(cache, inflight, futures, calls, epoch)
    }

    constructor ()
      ensures Init(State())
    {
      cache, inflight, futures, calls, epoch := map[], map[], map[], map[], 0;
    }

    method LookUp(call: nat, text: string, loop: nat) returns (cached: Option<Embedding>)
      requires Enabled(State(), Arrive(call, text, loop))
      modifies this
      ensures State() == Apply(old(State()), Arrive(call, text, loop))
      ensures cached == if text in old(cache) then Some(old(cache)[text]) else None
      ensures calls == old(calls)[call := Call(text, loop, if cached.Some? then Served(cached.value) else Missed)]
      ensures cache == old(cache) && inflight == old(inflight) && futures == old(futures)
    {
      if text in cache {
        calls := calls[call := Call(text, loop, Served(cache[text]))];
        return Some(cache[text]);
      }
      calls := calls[call := Call(text, loop, Missed)];
      return None;
    }

    /** Ride along with a request in flight on this loop, or register a new one. */
    method JoinOrLead(call: nat, id: nat)
      requires Enabled(State(), Enter(call, id))
      modifies this
      ensures State() == Apply(old(State()), Enter(call, id))
      ensures var me, entries, known := old(calls)[call], old(inflight), old(futures);
              if me.text in entries && entries[me.text] in known && known[entries[me.text]].loop == me.loop && known[entries[me.text]].state == Pending
              then inflight == entries && futures == known && calls == old(calls)[call := Call(me.text, me.loop, Following(entries[me.text]))]
              else && inflight == entries[me.text := id] && futures == known[id := Future(me.text, me.loop, call, epoch, Pending)]
                   && calls == old(calls)[call := Call(me.text, me.loop, Leading(id))]
    {
      var me := calls[call];
      if me.text in inflight && inflight[me.text] in futures {
        var existing := futures[inflight[me.text]];
        if existing.loop == me.loop && existing.state.Pending? {
          calls := calls[call := me.(stage := Following(inflight[me.text]))];
          return;
        }
      }
      futures := futures[id := Future(me.text, me.loop, call, epoch, Pending)];
      inflight := inflight[me.text := id];
      calls := calls[call := me.(stage := Leading(id))];
    }

    /** The provider answers or fails: cache, complete the future, fall into `finally`. */
    method Publish(call: nat, outcome: Outcome)
      requires Enabled(State(), Answer(call, outcome))
      modifies this
      ensures State() == Apply(old(State()), Answer(call, outcome))
      ensures var me, f := old(calls)[call], old(calls)[call].stage.future;
              && cache == (if outcome.Vector? then old(cache)[me.text := outcome.v] else old(cache))
              && futures == (if old(futures)[f].state == Pending then old(futures)[f := old(futures)[f].(state := Settled(outcome))] else old(futures))
              && calls == old(calls)[call := Call(me.text, me.loop, Leaving(f, outcome))] && inflight == old(inflight)
    {
      var me := calls[call];
      var f := me.stage.future;
      if outcome.Vector? {
        cache := cache[me.text := outcome.v];
      }
      if futures[f].state.Pending? {
        futures := futures[f := futures[f].(state := Settled(outcome))];
      }
      calls := calls[call := me.(stage := Leaving(f, outcome))];
    }

    method AbandonLead(call: nat)
      requires Enabled(State(), CancelLeader(call))
      modifies this
      ensures State() == Apply(old(State()), CancelLeader(call))
      ensures futures == old(futures) && inflight == old(inflight) && cache == old(cache)
      ensures calls == old(calls)[call := Call(old(calls)[call].text, old(calls)[call].loop, Leaving(old(calls)[call].stage.future, Cancelled))]
    {
      calls := calls[call := calls[call].(stage := Leaving(calls[call].stage.future, Cancelled))];
    }

    /** The identity-checked cleanup of the `finally` block. */
    method CleanUp(call: nat)
      requires Enabled(State(), Cleanup(call))
      modifies this
      ensures State() == Apply(old(State()), Cleanup(call))
      ensures var me := old(calls)[call];
              && inflight == (if me.text in old(inflight) && old(inflight)[me.text] == me.stage.future then old(inflight) - {me.text} else old(inflight))
              && calls == old(calls)[call := Call(me.text, me.loop, Led(me.stage.future, me.stage.outcome))]
              && futures == old(futures) && cache == old(cache)
    {
      var me := calls[call];
      if me.text in inflight && inflight[me.text] == me.stage.future {
        inflight := inflight - {me.text};
      }
      calls := calls[call := me.(stage := Led(me.stage.future, me.stage.outcome))];
    }

    method ResumeFollower(call: nat) returns (outcome: Outcome)
      requires Enabled(State(), Wake(call))
      modifies this
      ensures State() == Apply(old(State()), Wake(call))
      ensures calls == old(calls)[call := Call(old(calls)[call].text, old(calls)[call].loop, Followed(old(calls)[call].stage.future, outcome))]
      ensures outcome == match old(futures)[old(calls)[call].stage.future].state case Settled(o) => o case _ => Cancelled
      ensures futures == old(futures) && inflight == old(inflight) && cache == old(cache)
    {
      var me := calls[call];
      var state := futures[me.stage.future].state;
      outcome := if state.Settled? then state.outcome else Cancelled;
      calls := calls[call := me.(stage := Followed(me.stage.future, outcome))];
    }

    method DropFollower(call: nat)
      requires Enabled(State(), CancelFollower(call))
      modifies this
      ensures State() == Apply(old(State()), CancelFollower(call))
      ensures var f := old(calls)[call].stage.future;
              && calls == old(calls)[call := Call(old(calls)[call].text, old(calls)[call].loop, Dropped(f))]
              && futures == (if old(futures)[f].state == Pending then old(futures)[f := old(futures)[f].(state := Withdrawn(call))] else old(futures))
              && inflight == old(inflight) && cache == old(cache)
    {
      var me := calls[call];
      var f := me.stage.future;
      if futures[f].state.Pending? {
        futures := futures[f := futures[f].(state := Withdrawn(call))];
      }
      calls := calls[call := me.(stage := Dropped(f))];
    }

    method ResetCircuitBreaker()
      modifies this
      ensures State() == Apply(old(State()), Reset)
      ensures inflight == map[] && futures == old(futures) && calls == old(calls) && cache == old(cache)
    {
      inflight := map[];
      epoch := epoch + 1;
    }
  }
}
