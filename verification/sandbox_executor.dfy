/** The concurrency guards of the unpooled executor, services/sandbox_executor.py. A direct
    run holds a global slot and then a slot of its tenant while it runs; a nested run, made
    by a running one that awaits it, takes neither. Steps of different runs interleave. */
module SandboxExecutor {

  datatype Phase = WantGlobal | WantTenant | Running | Done

  datatype Origin = Direct | NestedIn(parent: nat)

  datatype Run = Run(tenant: string, origin: Origin, phase: Phase)

  /** The two settings as configured; values below the least useful one are raised to it. */
  datatype Limits = Limits(maxGlobal: int, maxPerTenant: int)

  /** The semaphore values; a tenant's semaphore is made when it is first asked for. */
  datatype Guards = Guards(runs: seq<Run>, global: int, tenants: map<string, int>)

  datatype Action =
    | Start(tenant: string)
    | AcquireGlobal(i: nat)
    | AcquireTenant(i: nat)
    | Call(i: nat)
    | Finish(i: nat)
    | Abort(i: nat)

  function GlobalLimit(l: Limits): nat {
    if l.maxGlobal < 0 then 0 else l.maxGlobal
  }

  function TenantLimit(l: Limits): nat {
    if l.maxPerTenant < 1 then 1 else l.maxPerTenant
  }

  /** A limit of zero means no global semaphore. */
  predicate HasGlobal(l: Limits) {
    GlobalLimit(l) > 0
  }

  function TenantValue(l: Limits, g: Guards, tenant: string): int {
    if tenant in g.tenants then g.tenants[tenant] else TenantLimit(l)
  }

  function Init(l: Limits): Guards {
    Guards([], GlobalLimit(l), map[])
  }

  ghost predicate Awaits(g: Guards, i: nat) {
    exists j: nat :: j < |g.runs| && g.runs[j].origin == NestedIn(i) && g.runs[j].phase != Done
  }

  ghost predicate Enabled(l: Limits, g: Guards, a: Action) {
    match a
    case Start(_) => true
    case AcquireGlobal(i) => i < |g.runs| && g.runs[i].phase == WantGlobal && g.global > 0
    case AcquireTenant(i) => i < |g.runs| && g.runs[i].phase == WantTenant && TenantValue(l, g, g.runs[i].tenant) > 0
    case Call(i) => i < |g.runs| && g.runs[i].phase == Running && !Awaits(g, i)
    case Finish(i) => i < |g.runs| && g.runs[i].phase == Running && !Awaits(g, i)
    case Abort(i) => i < |g.runs| && (g.runs[i].phase == WantGlobal || g.runs[i].phase == WantTenant)
  }

  function Moved(g: Guards, i: nat, phase: Phase): seq<Run>
    requires i < |g.runs|
  {
    g.runs[i := g.runs[i].(phase := phase)]
  }

  function GlobalReleased(l: Limits, g: Guards): int {
    if HasGlobal(l) then g.global + 1 else g.global
  }

  function Apply(l: Limits, g: Guards, a: Action): Guards
    requires Enabled(l, g, a)
  {
    match a
    case Start(tenant) => g.(runs := g.runs + [Run(tenant, Direct, if HasGlobal(l) then WantGlobal else WantTenant)])
    case AcquireGlobal(i) => g.(runs := Moved(g, i, WantTenant), global := g.global - 1)
    case AcquireTenant(i) =>
      var tenant := g.runs[i].tenant;
      g.(runs := Moved(g, i, Running), tenants := g.tenants[tenant := TenantValue(l, g, tenant) - 1])
    case Call(i) => g.(runs := g.runs + [Run(g.runs[i].tenant, NestedIn(i), Running)])
    case Finish(i) =>
      if g.runs[i].origin.NestedIn? then g.(runs := Moved(g, i, Done))
      else
        var tenant := g.runs[i].tenant;
        Guards(Moved(g, i, Done), GlobalReleased(l, g), g.tenants[tenant := TenantValue(l, g, tenant) + 1])
    case Abort(i) =>
      if g.runs[i].phase == WantGlobal then g.(runs := Moved(g, i, Done))
      else g.(runs := Moved(g, i, Done), global := GlobalReleased(l, g))
  }

  // ---- The executor -------------------------------------------------------------------------

  class WasmExecutor {
    const limits: Limits
    var global: int
    var tenants: map<string, int>
    var runs: seq<Run>

    ghost function State(): Guards
      reads this
    {
      Guards(runs, global, tenants)
    }

    constructor (limits: Limits)
      ensures this.limits == limits && State() == Init(limits)
      ensures runs == [] && tenants == map[] && global == if limits.maxGlobal > 0 then limits.maxGlobal else 0
    {
      this.limits := limits;
      runs, global, tenants := [], GlobalLimit(limits), map[];
    }

    /** `run` up to its first wait. */
    method StartRun(tenant: string)
      modifies this
      ensures State() == Apply(limits, old(State()), Start(tenant))
      ensures runs == old(runs) + [Run(tenant, Direct, if limits.maxGlobal > 0 then WantGlobal else WantTenant)]
      ensures global == old(global) && tenants == old(tenants)
    {
      runs := runs + [Run(tenant, Direct, if HasGlobal(limits) then WantGlobal else WantTenant)];
    }

    /** The next run waiting for the global semaphore gets it, if it has room. */
    method EnterGlobal(i: nat) returns (entered: bool)
      requires i < |runs| && runs[i].phase == WantGlobal
      modifies this
      ensures entered <==> old(global) > 0
      ensures entered ==> global == old(global) - 1 && runs == old(runs)[i := old(runs)[i].(phase := WantTenant)]
      ensures entered <==> Enabled(limits, old(State()), AcquireGlobal(i))
      ensures State() == if entered then Apply(limits, old(State()), AcquireGlobal(i)) else old(State())
    {
      entered := global > 0;
      if entered {
        global := global - 1;
        runs := runs[i := runs[i].(phase := WantTenant)];
      }
    }

    /** The tenant's semaphore, made on first use. */
    method TenantSemaphore(tenant: string) returns (value: int)
      modifies this`tenants
      ensures value == TenantValue(limits, old(State()), tenant)
      ensures tenants == old(tenants)[tenant := value]
      ensures value == if tenant in old(tenants) then old(tenants)[tenant] else if limits.maxPerTenant > 1 then limits.maxPerTenant else 1
    {
      if tenant !in tenants {
        tenants := tenants[tenant := TenantLimit(limits)];
      }
      value := tenants[tenant];
    }

    method EnterTenant(i: nat) returns (entered: bool)
      requires i < |runs| && runs[i].phase == WantTenant
      modifies this
      ensures entered ==> runs == old(runs)[i := old(runs)[i].(phase := Running)] && global == old(global)
      ensures entered <==> Enabled(limits, old(State()), AcquireTenant(i))
      ensures entered ==> State() == Apply(limits, old(State()), AcquireTenant(i))
      ensures !entered ==> runs == old(runs) && global == old(global)
      ensures !entered ==> forall t :: TenantValue(limits, State(), t) == TenantValue(limits, old(State()), t)
    {
      var tenant := runs[i].tenant;
      var value := TenantSemaphore(tenant);
      entered := value > 0;
      if entered {
        tenants := tenants[tenant := value - 1];
        runs := runs[i := runs[i].(phase := Running)];
      }
    }

    /** A running tool calls a sibling: no guard is taken. */
    method CallSibling(i: nat)
      requires Enabled(limits, State(), Call(i))
      modifies this
      ensures State() == Apply(limits, old(State()), Call(i))
      ensures runs == old(runs) + [Run(old(runs)[i].tenant, NestedIn(i), Running)]
      ensures global == old(global) && tenants == old(tenants)
    {
      runs := runs + [Run(runs[i].tenant, NestedIn(i), Running)];
    }

    /** A run ends, in whatever way, and leaves its guards in reverse order. */
    method EndRun(i: nat)
      requires Enabled(limits, State(), Finish(i))
      modifies this
      ensures State() == Apply(limits, old(State()), Finish(i))
      ensures runs == old(runs)[i := old(runs)[i].(phase := Done)]
      ensures old(runs)[i].origin.NestedIn? ==> global == old(global) && tenants == old(tenants)
      ensures old(runs)[i].origin == Direct ==> global == old(global) + if limits.maxGlobal > 0 then 1 else 0
    {
      if runs[i].origin.Direct? {
        var value := TenantSemaphore(runs[i].tenant);
        tenants := tenants[runs[i].tenant := value + 1];
        if HasGlobal(limits) {
          global := global + 1;
        }
      }
      runs := runs[i := runs[i].(phase := Done)];
    }

    /** A run is cancelled while it waits. */
    method CancelWaiting(i: nat)
      requires Enabled(limits, State(), Abort(i))
      modifies this
      ensures State() == Apply(limits, old(State()), Abort(i))
      ensures runs == old(runs)[i := old(runs)[i].(phase := Done)] && tenants == old(tenants)
      ensures global == old(global) + if old(runs)[i].phase == WantTenant && limits.maxGlobal > 0 then 1 else 0
    {
      if runs[i].phase == WantTenant && HasGlobal(limits) {
        global := global + 1;
      }
      runs := runs[i := runs[i].(phase := Done)];
    }
  }

  // ---- Runs of the machine --------------------------------------------------------------------

  ghost predicate IsRun(l: Limits, states: seq<Guards>, actions: seq<Action>) {
    && |states| == |actions| + 1
    && states[0] == Init(l)
    && forall n :: 0 <= n < |actions| ==> Enabled(l, states[n], actions[n]) && states[n + 1] == Apply(l, states[n], actions[n])
  }

  function Where(runs: seq<Run>, p: Run -> bool): set<nat> {
    set i: nat | i < |runs| && p(runs[i])
  }

  /** A direct run inside the global guard. */
  predicate IsInside(r: Run) {
    r.origin == Direct && (r.phase == WantTenant || r.phase == Running)
  }

  /** A direct run of the tenant inside both guards. */
  predicate IsExecuting(r: Run, tenant: string) {
    r.origin == Direct && r.phase == Running && r.tenant == tenant
  }

  function Inside(runs: seq<Run>): set<nat> {
    Where(runs, IsInside)
  }

  function Executing(runs: seq<Run>, tenant: string): set<nat> {
    Where(runs, (r: Run) => IsExecuting(r, tenant))
  }

  function One(b: bool): nat {
    if b then 1 else 0
  }

  lemma WhereReplaced(runs: seq<Run>, p: Run -> bool, i: nat, r: Run)
    requires i < |runs|
    ensures |Where(runs[i := r], p)| == |Where(runs, p)| - One(p(runs[i])) + One(p(r))
  {
    var others := Where(runs, p) - {i};
    assert Where(runs, p) == others + if p(runs[i]) then {i} else {};
    assert Where(runs[i := r], p) == others + if p(r) then {i} else {};
  }

  lemma WhereAppended(runs: seq<Run>, p: Run -> bool, r: Run)
    ensures |Where(runs + [r], p)| == |Where(runs, p)| + One(p(r))
  {
    assert Where(runs + [r], p) == Where(runs, p) + if p(r) then {|runs|} else {};
  }

  /** How a step changes the number of runs with a property. */
  lemma WhereStep(l: Limits, g: Guards, a: Action, p: Run -> bool)
    requires Enabled(l, g, a)
    ensures var after := Apply(l, g, a).runs;
            match a
            case Start(_) => |Where(after, p)| == |Where(g.runs, p)| + One(p(after[|g.runs|]))
            case Call(_) => |Where(after, p)| == |Where(g.runs, p)| + One(p(after[|g.runs|]))
            case AcquireGlobal(i) => |Where(after, p)| == |Where(g.runs, p)| - One(p(g.runs[i])) + One(p(after[i]))
            case AcquireTenant(i) => |Where(after, p)| == |Where(g.runs, p)| - One(p(g.runs[i])) + One(p(after[i]))
            case Finish(i) => |Where(after, p)| == |Where(g.runs, p)| - One(p(g.runs[i])) + One(p(after[i]))
            case Abort(i) => |Where(after, p)| == |Where(g.runs, p)| - One(p(g.runs[i])) + One(p(after[i]))
  {
    hide Where, Awaits, TenantValue;
    var after := Apply(l, g, a).runs;
    if a.Start? || a.Call? {
      WhereAppended(g.runs, p, after[|g.runs|]);
    } else {
      WhereReplaced(g.runs, p, a.i, after[a.i]);
    }
  }

  ghost predicate NestingOk(runs: seq<Run>) {
    forall j :: 0 <= j < |runs| && runs[j].origin.NestedIn? ==>
      && runs[j].origin.parent < j
      && (runs[j].phase == Running || runs[j].phase == Done)
      && (runs[j].phase != Done ==> runs[runs[j].origin.parent].phase == Running)
      && runs[j].tenant == runs[runs[j].origin.parent].tenant
  }

  ghost predicate GlobalOk(l: Limits, g: Guards) {
    && (HasGlobal(l) ==> g.global + |Inside(g.runs)| == GlobalLimit(l) && g.global >= 0)
    && (!HasGlobal(l) ==> forall i :: 0 <= i < |g.runs| ==> g.runs[i].phase != WantGlobal)
  }

  ghost predicate TenantsOk(l: Limits, g: Guards) {
    forall tenant :: TenantValue(l, g, tenant) + |Executing(g.runs, tenant)| == TenantLimit(l) && TenantValue(l, g, tenant) >= 0
  }

  ghost predicate Inv(l: Limits, g: Guards) {
    NestingOk(g.runs) && GlobalOk(l, g) && TenantsOk(l, g)
  }

  lemma StepKeepsNesting(l: Limits, g: Guards, a: Action)
    requires NestingOk(g.runs) && Enabled(l, g, a)
    ensures NestingOk(Apply(l, g, a).runs)
  {
    hide TenantValue;
    if a.Finish? {
      assert forall j :: 0 <= j < |g.runs| && g.runs[j].origin == NestedIn(a.i) ==> g.runs[j].phase == Done;
    }
  }

  lemma StepKeepsGlobal(l: Limits, g: Guards, a: Action)
    requires NestingOk(g.runs) && GlobalOk(l, g) && Enabled(l, g, a)
    ensures GlobalOk(l, Apply(l, g, a))
  {
    hide TenantValue, Awaits, Where;
    WhereStep(l, g, a, IsInside);
  }

  lemma StepKeepsTenant(l: Limits, g: Guards, a: Action, tenant: string)
    requires NestingOk(g.runs) && Enabled(l, g, a)
    requires TenantValue(l, g, tenant) + |Executing(g.runs, tenant)| == TenantLimit(l) && TenantValue(l, g, tenant) >= 0
    ensures var after := Apply(l, g, a);
            TenantValue(l, after, tenant) + |Executing(after.runs, tenant)| == TenantLimit(l) && TenantValue(l, after, tenant) >= 0
  {
    hide Awaits, Where;
    WhereStep(l, g, a, (r: Run) => IsExecuting(r, tenant));
  }

  lemma StepKeeps(l: Limits, g: Guards, a: Action)
    requires Inv(l, g) && Enabled(l, g, a)
    ensures Inv(l, Apply(l, g, a))
  {
    hide NestingOk, GlobalOk, Enabled, Apply, Executing, TenantValue;
    StepKeepsNesting(l, g, a);
    StepKeepsGlobal(l, g, a);
    var after := Apply(l, g, a);
    forall tenant
      ensures TenantValue(l, after, tenant) + |Executing(after.runs, tenant)| == TenantLimit(l) && TenantValue(l, after, tenant) >= 0
    {
      assert TenantValue(l, g, tenant) >= 0;
      StepKeepsTenant(l, g, a, tenant);
    }
  }

  lemma InitKeeps(l: Limits)
    ensures Inv(l, Init(l))
  {
    assert Inside([]) == {};
    forall tenant
      ensures |Executing([], tenant)| == 0
    {
      assert Executing([], tenant) == {};
    }
  }

  lemma {:induction false} RunKeeps(l: Limits, states: seq<Guards>, actions: seq<Action>, n: nat)
    requires IsRun(l, states, actions) && n < |states|
    ensures Inv(l, states[n])
  {
    hide Inv, Enabled, Apply, Init;
    if n == 0 {
      InitKeeps(l);
    } else {
      RunKeeps(l, states, actions, n - 1);
      StepKeeps(l, states[n - 1], actions[n - 1]);
    }
  }

  /** The runs between the global guard and their end, respectively the running ones of a
      tenant; nested runs are not among them. */
  function InsideRuns(runs: seq<Run>): set<nat> {
    set i: nat | i < |runs| && runs[i].origin == Direct && runs[i].phase in {WantTenant, Running}
  }

  function ExecutingRuns(runs: seq<Run>, tenant: string): set<nat> {
    set i: nat | i < |runs| && runs[i].origin == Direct && runs[i].phase == Running && runs[i].tenant == tenant
  }

  lemma CountedRuns(runs: seq<Run>, tenant: string)
    ensures Inside(runs) == InsideRuns(runs) && Executing(runs, tenant) == ExecutingRuns(runs, tenant)
  {
  }

  /** In every state of every run the direct runs inside the guards are within both limits:
      a global one below one is none, a tenant's is at least one. */
  lemma GuardsHold(l: Limits, states: seq<Guards>, actions: seq<Action>, n: nat, tenant: string)
    requires IsRun(l, states, actions) && n < |states|
    ensures |ExecutingRuns(states[n].runs, tenant)| <= if l.maxPerTenant < 1 then 1 else l.maxPerTenant
    ensures l.maxGlobal > 0 ==> |InsideRuns(states[n].runs)| <= l.maxGlobal
  {
    RunKeeps(l, states, actions, n);
    CountedRuns(states[n].runs, tenant);
    assert TenantValue(l, states[n], tenant) >= 0;
  }

  /** In every state of every run a waiting run can enter exactly if fewer than the limit are
      inside: no slot is ever lost, whatever ended or was cancelled before. */
  lemma AdmitsExactly(l: Limits, states: seq<Guards>, actions: seq<Action>, n: nat, i: nat)
    requires IsRun(l, states, actions) && n < |states| && i < |states[n].runs|
    ensures states[n].runs[i].phase == WantGlobal ==>
      l.maxGlobal > 0 && (Enabled(l, states[n], AcquireGlobal(i)) <==> |InsideRuns(states[n].runs)| < l.maxGlobal)
    ensures states[n].runs[i].phase == WantTenant ==>
      (Enabled(l, states[n], AcquireTenant(i))
       <==> |ExecutingRuns(states[n].runs, states[n].runs[i].tenant)| < if l.maxPerTenant < 1 then 1 else l.maxPerTenant)
  {
    var g := states[n];
    RunKeeps(l, states, actions, n);
    CountedRuns(g.runs, g.runs[i].tenant);
    assert TenantValue(l, g, g.runs[i].tenant) >= 0;
  }

  /** A nested run starts at once, whatever the guards are at, and when it ends they are as
      they were. */
  lemma NestedPassesGuards(l: Limits, g: Guards, i: nat)
    requires i < |g.runs| && g.runs[i].phase == Running && forall j: nat :: j < |g.runs| && g.runs[j].origin == NestedIn(i) ==> g.runs[j].phase == Done
    requires forall j: nat :: j < |g.runs| ==> g.runs[j].origin != NestedIn(|g.runs|)
    ensures Enabled(l, g, Call(i))
    ensures var called := Apply(l, g, Call(i));
            && called.runs == g.runs + [Run(g.runs[i].tenant, NestedIn(i), Running)]
            && called.global == g.global && called.tenants == g.tenants
            && Enabled(l, called, Finish(|g.runs|))
            && var back := Apply(l, called, Finish(|g.runs|));
               back.global == g.global && back.tenants == g.tenants && back.runs[..|g.runs|] == g.runs
  {
    var called := Apply(l, g, Call(i));
    assert forall j: nat :: j < |called.runs| ==> called.runs[j].origin != NestedIn(|g.runs|) by {
      assert called.runs[|g.runs|].origin == NestedIn(i) && i != |g.runs|;
    }
  }

  // ---- Progress -------------------------------------------------------------------------------

  /** The steps that bring a run to its end, as opposed to new work or a cancellation. */
  predicate Completes(a: Action) {
    a.AcquireGlobal? || a.AcquireTenant? || a.Finish?
  }

  ghost predicate AllDone(runs: seq<Run>) {
    forall i :: 0 <= i < |runs| ==> runs[i].phase == Done
  }

  lemma NoneWhere(runs: seq<Run>, p: Run -> bool)
    requires forall i :: 0 <= i < |runs| ==> !p(runs[i])
    ensures |Where(runs, p)| == 0
  {
    assert Where(runs, p) == {};
  }

  /** The last of the running runs awaits nobody. */
  lemma {:induction false} LastRunning(runs: seq<Run>, i: nat) returns (last: nat)
    requires i < |runs| && runs[i].phase == Running
    ensures i <= last < |runs| && runs[last].phase == Running
    ensures forall j :: last < j < |runs| ==> runs[j].phase != Running
    decreases |runs| - i
  {
    last := i;
    if j :| i < j < |runs| && runs[j].phase == Running {
      last := LastRunning(runs, j);
    }
  }

  lemma InvCanStep(l: Limits, g: Guards, i: nat) returns (a: Action)
    requires Inv(l, g) && i < |g.runs| && g.runs[i].phase != Done
    ensures Completes(a) && Enabled(l, g, a)
  {
    hide Where;
    if r: nat :| r < |g.runs| && g.runs[r].phase == Running {
      var last := LastRunning(g.runs, r);
      a := Finish(last);
    } else if w: nat :| w < |g.runs| && g.runs[w].phase == WantTenant {
      NoneWhere(g.runs, (r: Run) => IsExecuting(r, g.runs[w].tenant));
      assert TenantValue(l, g, g.runs[w].tenant) + |Executing(g.runs, g.runs[w].tenant)| == TenantLimit(l);
      a := AcquireTenant(w);
    } else {
      NoneWhere(g.runs, IsInside);
      a := AcquireGlobal(i);
    }
  }

  /** No deadlock: as long as a run is unfinished, some run can acquire or finish. */
  lemma SomeRunCanStep(l: Limits, states: seq<Guards>, actions: seq<Action>, n: nat, i: nat) returns (a: Action)
    requires IsRun(l, states, actions) && n < |states|
    requires i < |states[n].runs| && states[n].runs[i].phase != Done
    ensures Completes(a) && Enabled(l, states[n], a)
  {
    RunKeeps(l, states, actions, n);
    a := InvCanStep(l, states[n], i);
  }

  /** The steps a run still has before it. */
  function StepsLeft(phase: Phase): nat {
    match phase
    case WantGlobal => 3
    case WantTenant => 2
    case Running => 1
    case Done => 0
  }

  function Work(runs: seq<Run>): nat {
    if runs == [] then 0 else Work(runs[..|runs| - 1]) + StepsLeft(runs[|runs| - 1].phase)
  }

  lemma {:induction false} WorkReplaced(runs: seq<Run>, i: nat, r: Run)
    requires i < |runs|
    ensures Work(runs[i := r]) == Work(runs) - StepsLeft(runs[i].phase) + StepsLeft(r.phase)
  {
    var front := runs[..|runs| - 1];
    if i == |runs| - 1 {
      assert runs[i := r][..|runs| - 1] == front;
    } else {
      WorkReplaced(front, i, r);
      assert runs[i := r][..|runs| - 1] == front[i := r];
    }
  }

  lemma {:induction false} NoWorkLeft(runs: seq<Run>)
    ensures Work(runs) == 0 <==> AllDone(runs)
  {
    if runs != [] {
      NoWorkLeft(runs[..|runs| - 1]);
      assert AllDone(runs) <==> AllDone(runs[..|runs| - 1]) && runs[|runs| - 1].phase == Done;
    }
  }

  /** A schedule of completing steps from a state on. */
  ghost predicate IsDrain(l: Limits, g: Guards, states: seq<Guards>, actions: seq<Action>) {
    && |states| == |actions| + 1
    && states[0] == g
    && (forall n :: 0 <= n < |actions| ==> Completes(actions[n]) && Enabled(l, states[n], actions[n]))
    && (forall n :: 0 <= n < |actions| ==> states[n + 1] == Apply(l, states[n], actions[n]))
  }

  lemma CompletingStep(l: Limits, g: Guards, a: Action)
    requires Completes(a) && Enabled(l, g, a)
    ensures Work(Apply(l, g, a).runs) == Work(g.runs) - 1
  {
    hide Work, Awaits, TenantValue;
    WorkReplaced(g.runs, a.i, Apply(l, g, a).runs[a.i]);
  }

  /** Without new work every schedule shrinks what is left by one a step, so no run can be
      overtaken for ever; and by `SomeRunCanStep` it goes on until all are done. */
  lemma {:induction false} DrainShrinks(l: Limits, g: Guards, states: seq<Guards>, actions: seq<Action>, n: nat)
    requires IsDrain(l, g, states, actions) && n <= |actions|
    ensures Work(states[n].runs) == Work(g.runs) - n
  {
    hide Work, Enabled, Apply;
    if n > 0 {
      DrainShrinks(l, g, states, actions, n - 1);
      CompletingStep(l, states[n - 1], actions[n - 1]);
    }
  }

  /** From every reachable state all runs can be brought to their end. */
  lemma {:induction false} Drains(l: Limits, g: Guards) returns (states: seq<Guards>, actions: seq<Action>)
    requires Inv(l, g)
    ensures IsDrain(l, g, states, actions) && |actions| == Work(g.runs)
    ensures AllDone(states[|actions|].runs)
    decreases Work(g.runs)
  {
    hide Inv, Work, Enabled, Apply;
    NoWorkLeft(g.runs);
    if AllDone(g.runs) {
      states, actions := [g], [];
    } else {
      var i: nat :| i < |g.runs| && g.runs[i].phase != Done;
      var a := InvCanStep(l, g, i);
      CompletingStep(l, g, a);
      StepKeeps(l, g, a);
      var laterStates, laterActions := Drains(l, Apply(l, g, a));
      states, actions := [g] + laterStates, [a] + laterActions;
    }
  }

  lemma ReachableDrains(l: Limits, states: seq<Guards>, actions: seq<Action>, n: nat) returns (later: seq<Guards>, steps: seq<Action>)
    requires IsRun(l, states, actions) && n < |states|
    ensures IsDrain(l, states[n], later, steps) && |steps| == Work(states[n].runs)
    ensures AllDone(later[|steps|].runs)
  {
    RunKeeps(l, states, actions, n);
    later, steps := Drains(l, states[n]);
  }

  // ---- Why nested runs take no guard ----------------------------------------------------------

  /** The steps of an executor whose nested runs wait for the guards like direct ones, and
      give them back when they end. */
  function ApplyWaiting(l: Limits, g: Guards, a: Action): Guards
    requires Enabled(l, g, a)
  {
    match a
    case Call(i) =>
      g.(runs := g.runs + [Run(g.runs[i].tenant, NestedIn(i), if HasGlobal(l) then WantGlobal else WantTenant)])
    case Finish(i) =>
      var tenant := g.runs[i].tenant;
      Guards(Moved(g, i, Done), GlobalReleased(l, g), g.tenants[tenant := TenantValue(l, g, tenant) + 1])
    case _ => Apply(l, g, a)
  }

  ghost predicate IsWaitingRun(l: Limits, states: seq<Guards>, actions: seq<Action>) {
    && |states| == |actions| + 1
    && states[0] == Init(l)
    && forall n :: 0 <= n < |actions| ==> Enabled(l, states[n], actions[n]) && states[n + 1] == ApplyWaiting(l, states[n], actions[n])
  }

  /** Such an executor deadlocks at a global limit of one: one call of a sibling, and the
      caller waits for the nested run, which waits for the slot the caller holds. */
  lemma NestedWaitWouldDeadlock(l: Limits, tenant: string) returns (states: seq<Guards>, actions: seq<Action>)
    requires GlobalLimit(l) == 1
    ensures IsWaitingRun(l, states, actions)
    ensures actions == [Start(tenant), AcquireGlobal(0), AcquireTenant(0), Call(0)]
    ensures var last := states[|actions|];
            !AllDone(last.runs) && forall a :: Completes(a) ==> !Enabled(l, last, a)
  {
    actions := [Start(tenant), AcquireGlobal(0), AcquireTenant(0), Call(0)];
    var s0 := Init(l);
    var s1 := ApplyWaiting(l, s0, actions[0]);
    var s2 := ApplyWaiting(l, s1, actions[1]);
    var s3 := ApplyWaiting(l, s2, actions[2]);
    assert s3.runs == [Run(tenant, Direct, Running)];
    var s4 := ApplyWaiting(l, s3, actions[3]);
    states := [s0, s1, s2, s3, s4];
    assert s4.runs == [Run(tenant, Direct, Running), Run(tenant, NestedIn(0), WantGlobal)];
    assert s4.runs[1].origin == NestedIn(0) && s4.runs[1].phase != Done;
  }
}
