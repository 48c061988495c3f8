/** Cross-tool calls: a code tool running in the sandbox asks the host to run sibling tools,
    which may ask in turn. The invoker and the execution path of services/proxy_registry.py,
    with the per-run dispatcher of services/sandbox_tool_bridge.py and the per-call decision
    of `ToolAuthorization`. */
module CallTree {
  import opened Wrappers
  import opened ToolAuthorization

  datatype Transport = Code | Remote

  datatype Mount = Mount(tenant: string, server: string)

  /** What the host finds when it relays one request: `defined` are the tools with a routing
      entry, `sourced` those whose source decrypts to more than blanks. */
  datatype World = World(
    catalogs: map<string, seq<Tool>>, policies: map<string, Policy>,
    servers: map<Mount, Transport>, defined: set<(Mount, string)>, sourced: set<(Mount, string)>)

  /** One run of a tool, as everything it asks of the host, in order; and one such request,
      with the world as it is by then and what the tool asked for does if it runs. Any guest
      that adapts to the answers it gets behaves like some such script. */
  datatype Guest = Guest(requests: seq<Request>)
  datatype Request = Request(server: string, tool: string, argumentsOk: bool, world: World, guest: Guest)

  /** The settings as configured. */
  datatype Settings = Settings(bridgeEnabled: bool, executionEnabled: bool, maxDepth: int, maxCalls: int)

  datatype Execution = Execution(tenant: string, server: string, tool: string, depth: nat, world: World)

  datatype Response =
    | Executed
    | CallLimit
    | CallInvalid
    | Forbidden
    | ConfirmationRequired
    | NotFound
    | NotCallable
    | ToolError
    | Downstream

  function AtLeastZero(value: int): nat {
    if value < 0 then 0 else value
  }

  function CatalogOf(w: World, tenant: string): seq<Tool> {
    if tenant in w.catalogs then w.catalogs[tenant] else []
  }

  function PolicyOf(w: World, tenant: string): Policy {
    if tenant in w.policies then w.policies[tenant] else NoPolicy
  }

  /** The original caller without empty scopes and roles. */
  function Cleaned(caller: Caller): Caller {
    Caller(NonEmpty(caller.scopes), caller.roles - {""})
  }

  function Authorize(tenant: string, caller: Caller, w: World, server: string, tool: string): Decision {
    AuthorizeToolCall(CatalogOf(w, tenant), PolicyOf(w, tenant), server, tool, Cleaned(caller))
  }

  /** A run at this depth may call siblings. */
  predicate MayCall(s: Settings, caller: Option<Caller>, depth: nat) {
    s.bridgeEnabled && caller.Some? && depth < AtLeastZero(s.maxDepth)
  }

  /** The refusal of a request by the invoker, if any. */
  function Refusal(tenant: string, caller: Caller, r: Request): Option<Response> {
    var authz := Authorize(tenant, caller, r.world, r.server, r.tool);
    if !authz.allowed then Some(Forbidden)
    else if authz.tool.Some? && authz.tool.value.requiresConfirmation then Some(ConfirmationRequired)
    else if Mount(tenant, r.server) !in r.world.servers then Some(NotFound)
    else if r.world.servers[Mount(tenant, r.server)] != Code then Some(NotCallable)
    else None
  }

  predicate CanExecute(s: Settings, e: Execution) {
    var entry := (Mount(e.tenant, e.server), e.tool);
    s.executionEnabled && entry in e.world.defined && entry in e.world.sourced
  }

  function Child(tenant: string, depth: nat, r: Request): Execution {
    Execution(tenant, r.server, r.tool, depth + 1, r.world)
  }

  predicate WellFormed(r: Request) {
    r.server != "" && r.tool != "" && r.argumentsOk
  }

  /** The request leads to an execution, budget aside. */
  predicate Accepts(s: Settings, tenant: string, caller: Caller, depth: nat, r: Request) {
    WellFormed(r) && Refusal(tenant, caller, r).None? && CanExecute(s, Child(tenant, depth, r))
  }

  /** A budget of zero is no budget. */
  predicate Spent(s: Settings, calls: nat) {
    AtLeastZero(s.maxCalls) > 0 && calls >= AtLeastZero(s.maxCalls)
  }

  // ---- The executions a tool call leads to ----------------------------------------------------

  /** The execution itself and all below it, in the order they start. */
  function Tree(s: Settings, caller: Option<Caller>, e: Execution, guest: Guest): seq<Execution>
    decreases guest, 0
  {
    [e] + if MayCall(s, caller, e.depth) then Served(s, caller.value, e, guest.requests, 0, 0) else []
  }

  /** The executions below `e` that its requests from the i-th on lead to. */
  function Served(s: Settings, caller: Caller, e: Execution, requests: seq<Request>, i: nat, calls: nat): seq<Execution>
    requires i <= |requests|
    decreases requests, |requests| - i
  {
    if i == |requests| then []
    else if Spent(s, calls) then Served(s, caller, e, requests, i + 1, calls)
    else if Accepts(s, e.tenant, caller, e.depth, requests[i]) then
      Tree(s, Some(caller), Child(e.tenant, e.depth, requests[i]), requests[i].guest) + Served(s, caller, e, requests, i + 1, calls + 1)
    else Served(s, caller, e, requests, i + 1, calls + 1)
  }

  /** What the invoker answers a well-formed request. */
  function Answer(s: Settings, tenant: string, caller: Caller, depth: nat, r: Request): Response {
    var entry := (Mount(tenant, r.server), r.tool);
    if Refusal(tenant, caller, r).Some? then Refusal(tenant, caller, r).value
    else if CanExecute(s, Child(tenant, depth, r)) then Executed
    else if s.executionEnabled && entry !in r.world.defined then NotFound
    else ToolError
  }

  /** The executions one request leads to, budget aside. */
  function Opened(s: Settings, caller: Caller, e: Execution, r: Request): seq<Execution> {
    if Accepts(s, e.tenant, caller, e.depth, r) then Tree(s, Some(caller), Child(e.tenant, e.depth, r), r.guest) else []
  }

  // ---- The host ---------------------------------------------------------------------------------

  /** The dispatcher of one run. */
  class SandboxToolBridge {
    const maxCalls: nat
    var calls: nat

    constructor (s: Settings)
      ensures maxCalls == (if s.maxCalls > 0 then s.maxCalls else 0) && calls == 0
    {
      maxCalls := AtLeastZero(s.maxCalls);
      calls := 0;
    }

    method Dispatch(s: Settings, caller: Caller, e: Execution, r: Request) returns (response: Response, log: seq<Execution>)
      requires maxCalls == AtLeastZero(s.maxCalls)
      modifies this
      ensures var spent := 0 < s.maxCalls <= old(calls);
              var malformed := r.server == "" || r.tool == "" || !r.argumentsOk;
              && calls == old(calls) + (if spent then 0 else 1)
              && log == (if spent then [] else Opened(s, caller, e, r))
              && (spent ==> response == CallLimit)
              && (!spent && malformed ==> response == CallInvalid && log == [])
              && (!spent && !malformed ==> response == Answer(s, e.tenant, caller, e.depth, r))
      decreases r, 2
    {
      if maxCalls > 0 && calls >= maxCalls {
        return CallLimit, [];
      }
      calls := calls + 1;
      if r.server == "" || r.tool == "" || !r.argumentsOk {
        return CallInvalid, [];
      }
      response, log := Invoke(s, caller, e, r);
    }
  }

  /** The invoker handed to the run `e`: every call is authorized again for the caller. */
  method Invoke(s: Settings, caller: Caller, e: Execution, r: Request) returns (response: Response, log: seq<Execution>)
    requires WellFormed(r)
    ensures log == Opened(s, caller, e, r)
    ensures response == Answer(s, e.tenant, caller, e.depth, r)
    decreases r, 1
  {
    var authz := Authorize(e.tenant, caller, r.world, r.server, r.tool);
    if !authz.allowed {
      return Forbidden, [];
    }
    if authz.tool.Some? && authz.tool.value.requiresConfirmation {
      return ConfirmationRequired, [];
    }
    var mount := Mount(e.tenant, r.server);
    if mount !in r.world.servers {
      return NotFound, [];
    }
    if r.world.servers[mount] != Code {
      return NotCallable, [];
    }
    response, log := CallTool(s, Some(caller), Child(e.tenant, e.depth, r), r.guest);
  }

  /** `call_tool`: code tools run here, the rest goes downstream and starts no execution. */
  method CallTool(s: Settings, caller: Option<Caller>, e: Execution, guest: Guest) returns (response: Response, log: seq<Execution>)
    ensures var mount, entry := Mount(e.tenant, e.server), (Mount(e.tenant, e.server), e.tool);
            if mount !in e.world.servers then response == NotFound && log == []
            else if e.world.servers[mount] == Remote then response == Downstream && log == []
            else if !s.executionEnabled then response == ToolError && log == []
            else if entry !in e.world.defined then response == NotFound && log == []
            else if entry !in e.world.sourced then response == ToolError && log == []
            else response == Executed && log == Tree(s, caller, e, guest)
    decreases guest, 1
  {
    var mount := Mount(e.tenant, e.server);
    if mount !in e.world.servers {
      return NotFound, [];
    }
    if e.world.servers[mount] != Code {
      return Downstream, [];
    }
    response, log := ExecuteCodeTool(s, caller, e, guest);
  }

  /** Runs one code tool, however that ends, and answers what it asks for meanwhile. */
  method ExecuteCodeTool(s: Settings, caller: Option<Caller>, e: Execution, guest: Guest) returns (response: Response, log: seq<Execution>)
    ensures var entry := (Mount(e.tenant, e.server), e.tool);
            if !s.executionEnabled then response == ToolError && log == []
            else if entry !in e.world.defined then response == NotFound && log == []
            else if entry !in e.world.sourced then response == ToolError && log == []
            else response == Executed && log == Tree(s, caller, e, guest)
    decreases guest, 0
  {
    if !s.executionEnabled {
      return ToolError, [];
    }
    var entry := (Mount(e.tenant, e.server), e.tool);
    if entry !in e.world.defined {
      return NotFound, [];
    }
    if entry !in e.world.sourced {
      return ToolError, [];
    }
    response, log := Executed, [e];
    if !MayCall(s, caller, e.depth) {
      return;
    }
    var bridge := new SandboxToolBridge(s);
    var i := 0;
    while i < |guest.requests|
      invariant i <= |guest.requests| && bridge.maxCalls == AtLeastZero(s.maxCalls)
      invariant Tree(s, caller, e, guest) == log + Served(s, caller.value, e, guest.requests, i, bridge.calls)
    {
      var answer, below := bridge.Dispatch(s, caller.value, e, guest.requests[i]);
      log := log + below;
      i := i + 1;
    }
  }

  // ---- Who is executed ------------------------------------------------------------------------

  /** The catalog of the tenant has the tool and the original caller may call it. */
  ghost predicate Granted(caller: Caller, tenant: string, w: World, server: string, tool: string, confirmation: bool) {
    && tenant in w.catalogs
    && exists i: nat ::
         && i < |w.catalogs[tenant]| && IsEntry(w.catalogs[tenant], i, server, tool)
         && w.catalogs[tenant][i].requiresConfirmation == confirmation
         && Entitled(if tenant in w.policies then w.policies[tenant] else Policy({}, {}), w.catalogs[tenant][i],
                     Caller(NonEmpty(caller.scopes), caller.roles))
  }

  /** The original caller may call the tool, which needs no confirmation and is on a code
      server mounted for the tenant. */
  ghost predicate Permitted(caller: Caller, e: Execution) {
    && Granted(caller, e.tenant, e.world, e.server, e.tool, false)
    && Mount(e.tenant, e.server) in e.world.servers && e.world.servers[Mount(e.tenant, e.server)] == Code
  }

  lemma AuthorizedExactly(tenant: string, caller: Caller, w: World, server: string, tool: string)
    ensures var authz := Authorize(tenant, caller, w, server, tool);
            var confirm := authz.tool.Some? && authz.tool.value.requiresConfirmation;
            && (authz.allowed && !confirm <==> Granted(caller, tenant, w, server, tool, false))
            && (authz.allowed && confirm <==> Granted(caller, tenant, w, server, tool, true))
  {
    hide AuthorizeToolCall, IsEntry;
    var catalog, policy := CatalogOf(w, tenant), PolicyOf(w, tenant);
    var cleaned, named := Cleaned(caller), Caller(NonEmpty(caller.scopes), caller.roles);
    AllowedExactly(catalog, policy, server, tool, cleaned);
    forall i: nat | i < |catalog|
      ensures Entitled(policy, catalog[i], cleaned) <==> Entitled(policy, catalog[i], named)
    {
    }
    hide Entitled;
    if i: nat :| IsEntry(catalog, i, server, tool) {
      DecisionNamesEntry(catalog, policy, i, server, tool, cleaned);
      EntryIsOne(catalog, i, server, tool);
    }
    NoEntryBeyond(catalog, server, tool);
  }

  lemma EntryIsOne(catalog: seq<Tool>, i: nat, server: string, tool: string)
    requires IsEntry(catalog, i, server, tool)
    ensures forall j: nat :: IsEntry(catalog, j, server, tool) ==> j == i
  {
  }

  lemma NoEntryBeyond(catalog: seq<Tool>, server: string, tool: string)
    ensures forall j: nat :: IsEntry(catalog, j, server, tool) ==> j < |catalog|
  {
  }

  /** The invoker's answer to a well-formed request, case by case. */
  lemma AnswerExactly(s: Settings, tenant: string, caller: Caller, depth: nat, r: Request)
    ensures var mount, entry := Mount(tenant, r.server), (Mount(tenant, r.server), r.tool);
            var answer := Answer(s, tenant, caller, depth, r);
            var free := Granted(caller, tenant, r.world, r.server, r.tool, false);
            var mounted, code := mount in r.world.servers, mount in r.world.servers && r.world.servers[mount] == Code;
            && (answer == Forbidden <==> !free && !Granted(caller, tenant, r.world, r.server, r.tool, true))
            && (answer == ConfirmationRequired <==> Granted(caller, tenant, r.world, r.server, r.tool, true))
            && (answer == NotCallable <==> free && mounted && !code)
            && (answer == NotFound <==> free && (!mounted || (code && s.executionEnabled && entry !in r.world.defined)))
            && (answer == ToolError <==> free && code && (!s.executionEnabled || (entry in r.world.defined && entry !in r.world.sourced)))
            && (answer == Executed <==> free && code && s.executionEnabled && entry in r.world.defined && entry in r.world.sourced)
  {
    hide Granted, Authorize;
    AuthorizedExactly(tenant, caller, r.world, r.server, r.tool);
  }

  lemma NotRefusedExactly(tenant: string, caller: Caller, depth: nat, r: Request)
    ensures Refusal(tenant, caller, r).None? <==> Permitted(caller, Child(tenant, depth, r))
  {
    hide Granted, Authorize;
    AuthorizedExactly(tenant, caller, r.world, r.server, r.tool);
  }

  ghost predicate AllBelow(s: Settings, caller: Caller, tenant: string, depth: nat, log: seq<Execution>) {
    forall e :: e in log ==> e.tenant == tenant && depth < e.depth <= AtLeastZero(s.maxDepth) && Permitted(caller, e)
  }

  lemma {:induction false} TreeBelow(s: Settings, caller: Caller, e: Execution, guest: Guest)
    ensures AllBelow(s, caller, e.tenant, e.depth, Tree(s, Some(caller), e, guest)[1..])
    decreases guest, 0
  {
    hide AllBelow, Served;
    if MayCall(s, Some(caller), e.depth) {
      ServedBelow(s, caller, e, guest.requests, 0, 0);
      assert Tree(s, Some(caller), e, guest)[1..] == Served(s, caller, e, guest.requests, 0, 0);
    } else {
      NoneBelow(s, caller, e.tenant, e.depth);
      assert Tree(s, Some(caller), e, guest)[1..] == [];
    }
  }

  lemma NoneBelow(s: Settings, caller: Caller, tenant: string, depth: nat)
    ensures AllBelow(s, caller, tenant, depth, [])
  {
  }

  lemma {:induction false} ServedBelow(s: Settings, caller: Caller, e: Execution, requests: seq<Request>, i: nat, calls: nat)
    requires i <= |requests| && MayCall(s, Some(caller), e.depth)
    ensures AllBelow(s, caller, e.tenant, e.depth, Served(s, caller, e, requests, i, calls))
    decreases requests, |requests| - i
  {
    hide AllBelow, Accepts, Tree, Spent;
    if i == |requests| {
      NoneBelow(s, caller, e.tenant, e.depth);
    } else if Spent(s, calls) {
      ServedBelow(s, caller, e, requests, i + 1, calls);
    } else {
      ServedBelow(s, caller, e, requests, i + 1, calls + 1);
      if Accepts(s, e.tenant, caller, e.depth, requests[i]) {
        var child, guest := Child(e.tenant, e.depth, requests[i]), requests[i].guest;
        TreeBelow(s, caller, child, guest);
        ChildBelow(s, caller, e, requests[i]);
        BelowJoined(s, caller, e, child, Tree(s, Some(caller), child, guest), Served(s, caller, e, requests, i + 1, calls + 1));
      }
    }
  }

  lemma ChildBelow(s: Settings, caller: Caller, e: Execution, r: Request)
    requires MayCall(s, Some(caller), e.depth) && Accepts(s, e.tenant, caller, e.depth, r)
    ensures var child := Child(e.tenant, e.depth, r);
            child.tenant == e.tenant && child.depth == e.depth + 1 <= AtLeastZero(s.maxDepth) && Permitted(caller, child)
    ensures var tree := Tree(s, Some(caller), Child(e.tenant, e.depth, r), r.guest);
            tree != [] && tree[0] == Child(e.tenant, e.depth, r)
  {
    hide Permitted, Refusal, Served;
    NotRefusedExactly(e.tenant, caller, e.depth, r);
  }

  lemma BelowJoined(s: Settings, caller: Caller, e: Execution, child: Execution, tree: seq<Execution>, rest: seq<Execution>)
    requires tree != [] && tree[0] == child && AllBelow(s, caller, child.tenant, child.depth, tree[1..])
    requires child.tenant == e.tenant && child.depth == e.depth + 1 <= AtLeastZero(s.maxDepth) && Permitted(caller, child)
    requires AllBelow(s, caller, e.tenant, e.depth, rest)
    ensures AllBelow(s, caller, e.tenant, e.depth, tree + rest)
  {
    hide Permitted;
    assert forall x :: x in tree ==> x == child || x in tree[1..];
  }

  // ---- How many are executed --------------------------------------------------------------------

  function Power(base: nat, n: nat): nat {
    if n == 0 then 1 else base * Power(base, n - 1)
  }

  /** The sum of budget^i for i from 0 to levels. */
  function Bound(budget: nat, levels: nat): nat {
    if levels == 0 then 1 else Bound(budget, levels - 1) + Power(budget, levels)
  }

  lemma PowerStep(base: nat, n: nat)
    ensures Power(base, 0) == 1 && Power(base, n + 1) == base * Power(base, n)
  {
  }

  lemma BoundStep(budget: nat, levels: nat)
    ensures Bound(budget, 0) == 1 && Bound(budget, levels + 1) == Bound(budget, levels) + Power(budget, levels + 1)
  {
  }

  lemma Distributes(n: nat, x: nat, y: nat)
    ensures n * (x + y) == n * x + n * y
  {
  }

  /** Counted from the root down: one run, and a full tree of the rest under each call. */
  lemma {:induction false} BoundByRoot(budget: nat, levels: nat)
    ensures Bound(budget, levels + 1) == 1 + budget * Bound(budget, levels)
  {
    PowerStep(budget, levels);
    if levels > 0 {
      BoundByRoot(budget, levels - 1);
      BoundStep(budget, levels - 1);
      BoundStep(budget, levels);
      hide Bound, Power;
      Distributes(budget, Bound(budget, levels - 1), Power(budget, levels));
    } else {
      BoundStep(budget, 0);
    }
  }

  /** How many levels of calls a run at this depth may still have below it. */
  function Levels(s: Settings, depth: nat): nat {
    if s.bridgeEnabled && depth < AtLeastZero(s.maxDepth) then AtLeastZero(s.maxDepth) - depth else 0
  }

  lemma {:induction false} TreeSize(s: Settings, caller: Option<Caller>, e: Execution, guest: Guest)
    requires AtLeastZero(s.maxCalls) > 0
    ensures |Tree(s, caller, e, guest)| <= Bound(AtLeastZero(s.maxCalls), Levels(s, e.depth))
    decreases guest, 0
  {
    hide Served, Bound;
    var budget := AtLeastZero(s.maxCalls);
    if MayCall(s, caller, e.depth) {
      ServedSize(s, caller.value, e, guest.requests, 0, 0);
      BoundByRoot(budget, Levels(s, e.depth + 1));
    } else {
      BoundPositive(budget, Levels(s, e.depth));
    }
  }

  lemma {:induction false} BoundPositive(budget: nat, levels: nat)
    ensures Bound(budget, levels) >= 1
  {
    if levels > 0 {
      BoundPositive(budget, levels - 1);
    }
  }

  lemma {:induction false} ServedSize(s: Settings, caller: Caller, e: Execution, requests: seq<Request>, i: nat, calls: nat)
    requires i <= |requests| && MayCall(s, Some(caller), e.depth)
    requires calls <= AtLeastZero(s.maxCalls) && AtLeastZero(s.maxCalls) > 0
    ensures |Served(s, caller, e, requests, i, calls)| <= (AtLeastZero(s.maxCalls) - calls) * Bound(AtLeastZero(s.maxCalls), Levels(s, e.depth + 1))
    decreases requests, |requests| - i
  {
    hide Accepts, Tree, Bound, Levels;
    var budget := AtLeastZero(s.maxCalls);
    var each := Bound(budget, Levels(s, e.depth + 1));
    if i == |requests| {
    } else if Spent(s, calls) {
      ServedSize(s, caller, e, requests, i + 1, calls);
    } else {
      ServedSize(s, caller, e, requests, i + 1, calls + 1);
      assert (budget - calls) * each == (budget - (calls + 1)) * each + each;
      if Accepts(s, e.tenant, caller, e.depth, requests[i]) {
        TreeSize(s, Some(caller), Child(e.tenant, e.depth, requests[i]), requests[i].guest);
      }
    }
  }

  // ---- The guarantees -------------------------------------------------------------------------

  /** One call from outside: nesting stays within the depth limit, the executions within the
      sum of the powers of the budget, and every execution but the first was authorized for
      the original caller, needs no confirmation and is on a code server of the tenant. */
  lemma CallTreeBounded(s: Settings, caller: Caller, root: Execution, guest: Guest)
    requires root.depth == 0 && s.maxCalls > 0
    ensures var tree := Tree(s, Some(caller), root, guest);
            && tree[0] == root
            && |tree| <= Bound(s.maxCalls, if s.maxDepth < 0 then 0 else s.maxDepth)
            && forall k :: 1 <= k < |tree| ==>
                 tree[k].tenant == root.tenant && 1 <= tree[k].depth <= s.maxDepth && Permitted(caller, tree[k])
  {
    var tree := Tree(s, Some(caller), root, guest);
    TreeSize(s, Some(caller), root, guest);
    BoundMonotone(AtLeastZero(s.maxCalls), Levels(s, 0), AtLeastZero(s.maxDepth));
    TreeBelow(s, caller, root, guest);
    forall k | 1 <= k < |tree|
      ensures tree[k].tenant == root.tenant && 1 <= tree[k].depth <= s.maxDepth && Permitted(caller, tree[k])
    {
      assert tree[k] == tree[1..][k - 1];
    }
  }

  lemma {:induction false} BoundMonotone(budget: nat, few: nat, many: nat)
    requires few <= many
    ensures Bound(budget, few) <= Bound(budget, many)
  {
    if few < many {
      BoundMonotone(budget, few, many - 1);
    }
  }

  /** A call without a caller never leads to another; nor does any with the bridge off, or at
      the depth limit. */
  lemma NoCallerNoCalls(s: Settings, caller: Option<Caller>, e: Execution, guest: Guest)
    requires caller.None? || !s.bridgeEnabled || e.depth >= s.maxDepth
    ensures Tree(s, caller, e, guest) == [e]
  {
  }

  /** Within depth and budget every request that is permitted and can run does run. */
  lemma PermittedRequestRuns(s: Settings, caller: Caller, e: Execution, guest: Guest, i: nat)
    requires s.bridgeEnabled && e.depth < s.maxDepth
    requires i < |guest.requests| && (s.maxCalls <= 0 || i < s.maxCalls)
    requires guest.requests[i].server != "" && guest.requests[i].tool != "" && guest.requests[i].argumentsOk
    requires Permitted(caller, Child(e.tenant, e.depth, guest.requests[i]))
    requires s.executionEnabled
    requires var r := guest.requests[i];
             var entry := (Mount(e.tenant, r.server), r.tool);
             entry in r.world.defined && entry in r.world.sourced
    ensures var r := guest.requests[i];
            Execution(e.tenant, r.server, r.tool, e.depth + 1, r.world) in Tree(s, Some(caller), e, guest)
  {
    hide Permitted, Refusal, Served;
    NotRefusedExactly(e.tenant, caller, e.depth, guest.requests[i]);
    ReachedFrom(s, caller, e, guest.requests, 0, i);
  }

  lemma {:induction false} ReachedFrom(s: Settings, caller: Caller, e: Execution, requests: seq<Request>, i: nat, k: nat)
    requires i <= k < |requests| && !Spent(s, k) && Accepts(s, e.tenant, caller, e.depth, requests[k])
    ensures Child(e.tenant, e.depth, requests[k]) in Served(s, caller, e, requests, i, i)
    decreases k - i
  {
    hide Accepts;
    if i < k {
      ReachedFrom(s, caller, e, requests, i + 1, k);
    }
  }

  // ---- The bound is met -----------------------------------------------------------------------

  /** A tool that keeps calling itself, `budget` times in each run, `levels` deep. */
  function Greedy(e: Execution, budget: nat, levels: nat): Guest {
    if levels == 0 then Guest([]) else Guest(Repeat(Request(e.server, e.tool, true, e.world, Greedy(e, budget, levels - 1)), budget))
  }

  function Repeat(r: Request, n: nat): seq<Request> {
    seq(n, _ => r)
  }

  /** Everything is in place for the caller to run this tool from another. */
  ghost predicate Open(s: Settings, caller: Caller, e: Execution) {
    s.bridgeEnabled && e.server != "" && e.tool != "" && CanExecute(s, e) && Permitted(caller, e)
  }

  lemma OpenAccepts(s: Settings, caller: Caller, e: Execution, guest: Guest)
    requires Open(s, caller, e)
    ensures Accepts(s, e.tenant, caller, e.depth, Request(e.server, e.tool, true, e.world, guest))
    ensures Open(s, caller, Child(e.tenant, e.depth, Request(e.server, e.tool, true, e.world, guest)))
  {
    hide Granted, Refusal;
    NotRefusedExactly(e.tenant, caller, e.depth, Request(e.server, e.tool, true, e.world, guest));
  }

  /** The bound cannot be lowered: such a tool reaches it in any world where it may run. */
  lemma {:induction false} BoundReached(s: Settings, caller: Caller, e: Execution, levels: nat)
    requires Open(s, caller, e) && AtLeastZero(s.maxCalls) > 0
    requires e.depth + levels == AtLeastZero(s.maxDepth)
    ensures |Tree(s, Some(caller), e, Greedy(e, AtLeastZero(s.maxCalls), levels))| == Bound(AtLeastZero(s.maxCalls), levels)
    decreases levels, 0, 0
  {
    hide Served, Bound;
    var budget := AtLeastZero(s.maxCalls);
    if levels == 0 {
      BoundZero(budget);
    } else {
      GreedyServed(s, caller, e, levels, 0);
      BoundByRoot(budget, levels - 1);
    }
  }

  lemma BoundZero(budget: nat)
    ensures Bound(budget, 0) == 1
  {
  }

  lemma {:induction false} GreedyServed(s: Settings, caller: Caller, e: Execution, levels: nat, i: nat)
    requires Open(s, caller, e) && AtLeastZero(s.maxCalls) > 0 && levels > 0
    requires e.depth + levels == AtLeastZero(s.maxDepth) && i <= AtLeastZero(s.maxCalls)
    ensures var budget := AtLeastZero(s.maxCalls);
            |Served(s, caller, e, Greedy(e, budget, levels).requests, i, i)| == (budget - i) * Bound(budget, levels - 1)
    decreases levels - 1, 1, AtLeastZero(s.maxCalls) - i
  {
    hide Bound, Tree, Accepts, Open;
    var budget := AtLeastZero(s.maxCalls);
    var below := Greedy(e, budget, levels - 1);
    var r := Request(e.server, e.tool, true, e.world, below);
    var requests := Greedy(e, budget, levels).requests;
    if i < budget {
      OpenAccepts(s, caller, e, below);
      var child := Child(e.tenant, e.depth, r);
      assert requests[i] == r;
      GreedyServed(s, caller, e, levels, i + 1);
      GreedySame(e, child, budget, levels - 1);
      BoundReached(s, caller, child, levels - 1);
      assert (budget - i) * Bound(budget, levels - 1) == (budget - (i + 1)) * Bound(budget, levels - 1) + Bound(budget, levels - 1);
    }
  }

  lemma {:induction false} GreedySame(e: Execution, child: Execution, budget: nat, levels: nat)
    requires e.server == child.server && e.tool == child.tool && e.world == child.world
    ensures Greedy(e, budget, levels) == Greedy(child, budget, levels)
  {
    if levels > 0 {
      GreedySame(e, child, budget, levels - 1);
    }
  }

  /** With the budget set to zero, the number of executions has no bound of its own. */
  lemma {:induction false} NoBudgetNoBound(s: Settings, caller: Caller, e: Execution, n: nat)
    requires Open(s, caller, e) && s.maxCalls <= 0 && e.depth < s.maxDepth
    ensures |Tree(s, Some(caller), e, Greedy(e, n, 1))| > n
  {
    UnbudgetedServed(s, caller, e, n, 0);
  }

  lemma {:induction false} UnbudgetedServed(s: Settings, caller: Caller, e: Execution, n: nat, i: nat)
    requires Open(s, caller, e) && AtLeastZero(s.maxCalls) == 0 && i <= n
    ensures |Served(s, caller, e, Greedy(e, n, 1).requests, i, i)| >= n - i
    decreases n - i
  {
    hide Accepts, Open;
    if i < n {
      OpenAccepts(s, caller, e, Greedy(e, n, 0));
      assert Greedy(e, n, 1).requests[i] == Request(e.server, e.tool, true, e.world, Greedy(e, n, 0));
      UnbudgetedServed(s, caller, e, n, i + 1);
    }
  }
}
