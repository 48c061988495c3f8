/** Who may discover and who may call a tool: the scope filter of services/hybrid_search.py,
    the tenant overlay of services/tenant_tool_policy.py and the per-call decision of
    services/authorization.py, and how discovery relates to invocation. */
module ToolAuthorization {
  import opened Wrappers

  datatype Tool = Tool(server: string, name: string, scopes: seq<string>, requiresConfirmation: bool)

  // The normalized overlay; an allowlist entry is "server/name" or a whole server.
  datatype Policy = Policy(allowlist: set<string>, disabled: set<string>)

  datatype Caller = Caller(scopes: seq<string>, roles: set<string>)

  const SERVER_PREFIX := "server:"
  const ANY_SERVER := "server:*"
  const INVOKE_ROLE := "tool:invoke"
  const ADMIN_ROLE := "admin"

  predicate IsServerScope(scope: string) {
    SERVER_PREFIX <= scope
  }

  function QualifiedName(server: string, name: string): string {
    server + "/" + name
  }

  predicate MatchesAllowlist(server: string, name: string, allowlist: set<string>) {
    allowlist == {} || QualifiedName(server, name) in allowlist || QualifiedName(server, "*") in allowlist
  }

  predicate IsToolAvailable(policy: Policy, server: string, name: string) {
    QualifiedName(server, name) !in policy.disabled && MatchesAllowlist(server, name, policy.allowlist)
  }

  function FilterAvailableTools(policy: Policy, tools: seq<Tool>): (kept: seq<Tool>)
    ensures forall t :: t in kept <==> t in tools && IsToolAvailable(policy, t.server, t.name)
  {
    if tools == [] then []
    else if IsToolAvailable(policy, tools[0].server, tools[0].name) then [tools[0]] + FilterAvailableTools(policy, tools[1..])
    else FilterAvailableTools(policy, tools[1..])
  }

  // ---- Discovery -----------------------------------------------------------------------

  /** Empty scopes do not count; no scopes at all means no filter. */
  function NormalizeScopes(scopes: seq<string>): Option<seq<string>> {
    var cleaned := NonEmpty(scopes);
    if cleaned == [] then None else Some(cleaned)
  }

  function NonEmpty(scopes: seq<string>): (cleaned: seq<string>)
    ensures forall s :: s in cleaned <==> s in scopes && s != ""
  {
    if scopes == [] then [] else (if scopes[0] == "" then [] else [scopes[0]]) + NonEmpty(scopes[1..])
  }

  /** A catalog query: `None` leaves the field unconstrained, `Some` is `$in`. */
  datatype Match = Match(scopes: Option<set<string>>, servers: Option<set<string>>)

  predicate Selects(m: Match, tool: Tool) {
    && (m.scopes.Some? ==> exists s :: s in tool.scopes && s in m.scopes.value)
    && (m.servers.Some? ==> tool.server in m.servers.value)
  }

  function ToolScopes(scopes: seq<string>): set<string> {
    set s | s in scopes && !IsServerScope(s)
  }

  function AllowedServers(scopes: seq<string>): set<string> {
    set s | s in scopes && IsServerScope(s) && s != ANY_SERVER && s[|SERVER_PREFIX|..] != "" :: s[|SERVER_PREFIX|..]
  }

  function ScopeFilter(scopes: seq<string>, server: string): Match {
    var toolScopes := ToolScopes(scopes);
    var wanted := if toolScopes != {} then Some(toolScopes) else None;
    if server != "" then Match(wanted, Some({server}))
    else if ANY_SERVER in scopes then Match(wanted, None)
    else Match(wanted, Some(AllowedServers(scopes)))
  }

  /** What a `tools/list` query with an optional server parameter selects ("" for none). */
  function DiscoveryMatch(scopes: seq<string>, server: string): Match {
    match NormalizeScopes(scopes)
    case Some(cleaned) => ScopeFilter(cleaned, server)
    case None => if server != "" then Match(None, Some({server})) else Match(None, None)
  }

  predicate Discoverable(caller: Caller, policy: Policy, server: string, tool: Tool) {
    Selects(DiscoveryMatch(caller.scopes, server), tool) && tool in FilterAvailableTools(policy, [tool])
  }

  // ---- Invocation ------------------------------------------------------------------------

  datatype Decision = Decision(allowed: bool, reason: string, tool: Option<Tool>)

  function GetTool(catalog: seq<Tool>, server: string, name: string): (tool: Option<Tool>)
    ensures tool.Some? ==> tool.value in catalog && tool.value.server == server && tool.value.name == name
    ensures tool.None? ==> forall t :: t in catalog ==> !(t.server == server && t.name == name)
  {
    if catalog == [] then None
    else if catalog[0].server == server && catalog[0].name == name then Some(catalog[0])
    else GetTool(catalog[1..], server, name)
  }

  function AuthorizeToolCall(catalog: seq<Tool>, policy: Policy, server: string, name: string, caller: Caller): Decision {
    match GetTool(catalog, server, name)
    case None => Decision(false, "tool_not_found", None)
    case Some(tool) =>
      var scopes := set s | s in caller.scopes;
      var required := set s | s in tool.scopes;
      if QualifiedName(server, name) in policy.disabled then Decision(false, "tool_disabled", Some(tool))
      else if ADMIN_ROLE in caller.roles then Decision(true, "admin_override", Some(tool))
      else if INVOKE_ROLE !in caller.roles then Decision(false, "invoke_not_permitted", Some(tool))
      else if !MatchesAllowlist(server, name, policy.allowlist) then Decision(false, "tool_not_allowlisted", Some(tool))
      else if SERVER_PREFIX + server !in scopes && ANY_SERVER !in scopes then Decision(false, "server_scope_required", Some(tool))
      else if required == {} then Decision(true, "no_scope_required", Some(tool))
      else if scopes == {} then Decision(false, "missing_scope", Some(tool))
      else if required * scopes != {} then Decision(true, "scope_match", Some(tool))
      else Decision(false, "scope_mismatch", Some(tool))
  }

  /** The catalog has one entry per (server, name). */
  ghost predicate Keyed(catalog: seq<Tool>) {
    forall s, t :: s in catalog && t in catalog && s.server == t.server && s.name == t.name ==> s == t
  }

  ghost predicate Callable(caller: Caller, policy: Policy, tool: Tool) {
    AuthorizeToolCall([tool], policy, tool.server, tool.name, caller).allowed
  }

  /** With a keyed catalog a tool's decision depends on no other entry. */
  lemma CatalogEntryDecides(catalog: seq<Tool>, policy: Policy, tool: Tool, caller: Caller)
    requires Keyed(catalog) && tool in catalog
    ensures AuthorizeToolCall(catalog, policy, tool.server, tool.name, caller)
         == AuthorizeToolCall([tool], policy, tool.server, tool.name, caller)
  {
    assert GetTool(catalog, tool.server, tool.name) == Some(tool) by {
      var found := GetTool(catalog, tool.server, tool.name);
      assert found.Some? && found.value in catalog;
    }
    assert GetTool([tool], tool.server, tool.name) == Some(tool);
  }

  /** Entry `i` is what a lookup of that server and name finds. */
  predicate IsEntry(catalog: seq<Tool>, i: nat, server: string, name: string) {
    && i < |catalog|
    && catalog[i].server == server && catalog[i].name == name
    && (forall j :: 0 <= j < i ==> catalog[j].server != server || catalog[j].name != name)
  }

  lemma GetToolFinds(catalog: seq<Tool>, server: string, name: string)
    ensures var tool := GetTool(catalog, server, name);
            if tool.None? then forall i: nat :: !IsEntry(catalog, i, server, name)
            else exists i: nat :: IsEntry(catalog, i, server, name) && catalog[i] == tool.value
  {
    if catalog != [] {
      if catalog[0].server == server && catalog[0].name == name {
        assert IsEntry(catalog, 0, server, name);
      } else {
        GetToolFinds(catalog[1..], server, name);
        if GetTool(catalog, server, name).Some? {
          var i: nat :| IsEntry(catalog[1..], i, server, name) && catalog[1..][i] == GetTool(catalog, server, name).value;
          var n := i + 1;
          assert forall j :: 0 < j < |catalog| ==> catalog[j] == catalog[1..][j - 1];
          assert IsEntry(catalog, n, server, name);
        }
      }
    }
  }

  /** The caller has the capability, the tenant's allowlist admits the tool, and the
      caller's scopes cover its server and, if it asks for any, one of its own scopes. */
  ghost predicate HasGrants(policy: Policy, tool: Tool, caller: Caller) {
    && "tool:invoke" in caller.roles
    && (policy.allowlist == {} || tool.server + "/" + tool.name in policy.allowlist || tool.server + "/*" in policy.allowlist)
    && ("server:" + tool.server in caller.scopes || "server:*" in caller.scopes)
    && (tool.scopes == [] || exists s :: s in tool.scopes && s in caller.scopes)
  }

  /** What a call needs: disabling binds everybody, the rest everybody but administrators. */
  ghost predicate Entitled(policy: Policy, tool: Tool, caller: Caller) {
    tool.server + "/" + tool.name !in policy.disabled && ("admin" in caller.roles || HasGrants(policy, tool, caller))
  }

  lemma AllowedScopes(policy: Policy, tool: Tool, caller: Caller)
    ensures QualifiedName(tool.server, "*") == tool.server + "/*"
    ensures (set s | s in tool.scopes) == {} <==> tool.scopes == []
    ensures (set s | s in tool.scopes) * (set s | s in caller.scopes) != {} <==> exists s :: s in tool.scopes && s in caller.scopes
  {
    var required, scopes := set s | s in tool.scopes, set s | s in caller.scopes;
    if tool.scopes != [] {
      assert tool.scopes[0] in required;
    }
    if s :| s in tool.scopes && s in caller.scopes {
      assert s in required * scopes;
    }
  }

  lemma DecisionNamesEntry(catalog: seq<Tool>, policy: Policy, i: nat, server: string, name: string, caller: Caller)
    requires IsEntry(catalog, i, server, name)
    ensures AuthorizeToolCall(catalog, policy, server, name, caller).tool == Some(catalog[i])
  {
    GetToolFinds(catalog, server, name);
  }

  /** A call is allowed exactly if there is such a tool and the caller may call it. */
  lemma AllowedExactly(catalog: seq<Tool>, policy: Policy, server: string, name: string, caller: Caller)
    ensures AuthorizeToolCall(catalog, policy, server, name, caller).allowed
       <==> exists i: nat :: IsEntry(catalog, i, server, name) && Entitled(policy, catalog[i], caller)
  {
    GetToolFinds(catalog, server, name);
    var found := GetTool(catalog, server, name);
    if found.Some? {
      var i: nat :| IsEntry(catalog, i, server, name) && catalog[i] == found.value;
      AllowedScopes(policy, found.value, caller);
    }
  }

  /** The reason names the first test that decided, in this order: the tool exists, is not
      disabled, the caller is an administrator, may invoke, and so on. That the caller has
      no scopes at all is never the reason: the server grant is asked for before. */
  lemma ReasonIsFirst(catalog: seq<Tool>, policy: Policy, i: nat, caller: Caller)
    requires i < |catalog| && IsEntry(catalog, i, catalog[i].server, catalog[i].name)
    ensures var tool := catalog[i];
            var reason := AuthorizeToolCall(catalog, policy, tool.server, tool.name, caller).reason;
            var disabled := tool.server + "/" + tool.name in policy.disabled;
            var admin, invoke := "admin" in caller.roles, "tool:invoke" in caller.roles;
            var listed := policy.allowlist == {} || tool.server + "/" + tool.name in policy.allowlist || tool.server + "/*" in policy.allowlist;
            var server := "server:" + tool.server in caller.scopes || "server:*" in caller.scopes;
            var open := tool.scopes == [];
            var shared := exists s :: s in tool.scopes && s in caller.scopes;
            && reason != "tool_not_found" && reason != "missing_scope"
            && (reason == "tool_disabled" <==> disabled)
            && (reason == "admin_override" <==> !disabled && admin)
            && (reason == "invoke_not_permitted" <==> !disabled && !admin && !invoke)
            && (reason == "tool_not_allowlisted" <==> !disabled && !admin && invoke && !listed)
            && (reason == "server_scope_required" <==> !disabled && !admin && invoke && listed && !server)
            && (reason == "no_scope_required" <==> !disabled && !admin && invoke && listed && server && open)
            && (reason == "scope_match" <==> !disabled && !admin && invoke && listed && server && shared)
            && (reason == "scope_mismatch" <==> !disabled && !admin && invoke && listed && server && !open && !shared)
  {
    var tool := catalog[i];
    GetToolFinds(catalog, tool.server, tool.name);
    assert GetTool(catalog, tool.server, tool.name) == Some(tool);
    AllowedScopes(policy, tool, caller);
  }

  lemma UnknownTool(catalog: seq<Tool>, policy: Policy, server: string, name: string, caller: Caller)
    ensures AuthorizeToolCall(catalog, policy, server, name, caller) == Decision(false, "tool_not_found", None)
       <==> forall t :: t in catalog ==> t.server != server || t.name != name
  {
    var found := GetTool(catalog, server, name);
  }

  /** Which tools a listing shows, with or without a server parameter. */
  lemma ListedExactly(caller: Caller, policy: Policy, server: string, tool: Tool)
    ensures Discoverable(caller, policy, server, tool)
       <==> && tool.server + "/" + tool.name !in policy.disabled
            && (policy.allowlist == {} || tool.server + "/" + tool.name in policy.allowlist || tool.server + "/*" in policy.allowlist)
            && (if server != "" then tool.server == server
                else || (forall s :: s in caller.scopes ==> s == "") || "server:*" in caller.scopes
                     || (tool.server != "" && "server:" + tool.server in caller.scopes))
            && (|| (forall s :: s in caller.scopes ==> s == "" || "server:" <= s)
                || exists s :: s in tool.scopes && s in caller.scopes && s != "" && !("server:" <= s))
  {
    assert QualifiedName(tool.server, "*") == tool.server + "/*";
    var cleaned := NonEmpty(caller.scopes);
    assert tool in FilterAvailableTools(policy, [tool]) <==> IsToolAvailable(policy, tool.server, tool.name);
    if cleaned != [] {
      assert cleaned[0] in cleaned;
      assert ToolScopes(cleaned) == {} <==> forall s :: s in caller.scopes ==> s == "" || "server:" <= s by {
        assert forall s :: s in ToolScopes(cleaned) <==> s in caller.scopes && s != "" && !("server:" <= s);
      }
      assert ANY_SERVER in cleaned <==> ANY_SERVER in caller.scopes;
      if tool.server in AllowedServers(cleaned) {
        AllowedServersAreGranted(cleaned, tool.server);
      }
      var granted := SERVER_PREFIX + tool.server;
      assert granted[|SERVER_PREFIX|..] == tool.server;
      if granted in cleaned && granted != ANY_SERVER && tool.server != "" {
        assert tool.server in AllowedServers(cleaned);
      }
    }
  }

  // ---- Discovery implies invocation ----------------------------------------------------------

  predicate MayInvoke(caller: Caller) {
    INVOKE_ROLE in caller.roles && ADMIN_ROLE !in caller.roles
  }

  /** The caller holds a scope for tools, not only for servers. */
  predicate HasToolScope(caller: Caller) {
    ToolScopes(NonEmpty(caller.scopes)) != {}
  }

  predicate GrantsServer(scopes: seq<string>, server: string) {
    ANY_SERVER in scopes || SERVER_PREFIX + server in scopes
  }

  lemma AllowedServersAreGranted(scopes: seq<string>, server: string)
    requires server in AllowedServers(scopes)
    ensures SERVER_PREFIX + server in scopes
  {
    var s :| s in scopes && IsServerScope(s) && s != ANY_SERVER && s[|SERVER_PREFIX|..] != "" && s[|SERVER_PREFIX|..] == server;
    assert s == SERVER_PREFIX + server;
  }

  /** Whatever a scoped caller discovers, the caller may call: no list of tools shows one
      that the per-call decision then refuses. */
  lemma DiscoveryImpliesInvocation(catalog: seq<Tool>, policy: Policy, caller: Caller, tool: Tool)
    requires Keyed(catalog) && tool in catalog
    requires INVOKE_ROLE in caller.roles && HasToolScope(caller) && Discoverable(caller, policy, "", tool)
    ensures AuthorizeToolCall(catalog, policy, tool.server, tool.name, caller).allowed
  {
    CatalogEntryDecides(catalog, policy, tool, caller);
    var cleaned := NonEmpty(caller.scopes);
    var m := ScopeFilter(cleaned, "");
    var s :| s in tool.scopes && s in m.scopes.value;
    var scopes, required := set s | s in caller.scopes, set s | s in tool.scopes;
    assert s in required * scopes;
    if ANY_SERVER !in cleaned {
      AllowedServersAreGranted(cleaned, tool.server);
    }
  }

  /** For such a caller the only callable tools that stay hidden are those none of the
      caller's tool scopes names. */
  lemma HiddenButCallable(policy: Policy, caller: Caller, tool: Tool)
    requires MayInvoke(caller) && HasToolScope(caller) && Callable(caller, policy, tool) && tool.server != ""
    ensures Discoverable(caller, policy, "", tool) <==> exists s :: s in tool.scopes && s in ToolScopes(NonEmpty(caller.scopes))
  {
    var cleaned := NonEmpty(caller.scopes);
    assert GetTool([tool], tool.server, tool.name) == Some(tool);
    if ANY_SERVER !in cleaned {
      var s := SERVER_PREFIX + tool.server;
      assert s in caller.scopes && s in cleaned;
      assert s[|SERVER_PREFIX|..] == tool.server;
      if s != ANY_SERVER {
        assert tool.server in AllowedServers(cleaned);
      }
    }
  }

  const NoPolicy := Policy({}, {})

  /** Without any scope, everything available is listed and nothing is granted. */
  lemma UnscopedListing(caller: Caller, policy: Policy, tool: Tool)
    requires MayInvoke(caller) && NonEmpty(caller.scopes) == [] && IsToolAvailable(policy, tool.server, tool.name)
    ensures Discoverable(caller, policy, "", tool) && !Callable(caller, policy, tool)
  {
    var granted := SERVER_PREFIX + tool.server;
    assert granted != "" && granted !in caller.scopes && ANY_SERVER !in caller.scopes;
  }

  /** With server scopes only, every available tool of a granted server is listed, whatever
      it requires; so is every available tool of a server that is named. */
  lemma ServerScopedListing(caller: Caller, policy: Policy, server: string, name: string, named: string) returns (tool: Tool)
    requires MayInvoke(caller) && !HasToolScope(caller) && IsToolAvailable(policy, server, name)
    requires named == server != "" || (named == "" && ReachableByScope(caller.scopes, server))
    ensures tool.server == server && tool.name == name
    ensures Discoverable(caller, policy, named, tool) && !Callable(caller, policy, tool)
  {
    var other := "other";
    tool := Tool(server, name, [other], false);
    assert GetTool([tool], server, name) == Some(tool);
    assert !IsServerScope(other);
    var cleaned := NonEmpty(caller.scopes);
    assert other !in caller.scopes by {
      assert other in caller.scopes ==> other in ToolScopes(cleaned);
    }
    assert ANY_SERVER in caller.scopes ==> ANY_SERVER in cleaned;
    var scopes, required := set s | s in caller.scopes, set s | s in tool.scopes;
    assert other in required && forall s :: s in required ==> s == other;
    assert required * scopes == {};
  }

  /** A listing without server parameter reaches this server. */
  predicate ReachableByScope(scopes: seq<string>, server: string) {
    ANY_SERVER in scopes || server in AllowedServers(NonEmpty(scopes))
  }

  predicate ReachesServer(scopes: seq<string>) {
    ANY_SERVER in scopes || AllowedServers(NonEmpty(scopes)) != {}
  }

  lemma ReachedServer(scopes: seq<string>) returns (server: string)
    requires ReachesServer(scopes)
    ensures ReachableByScope(scopes, server)
  {
    if ANY_SERVER in scopes {
      server := "s";
    } else {
      server :| server in AllowedServers(NonEmpty(scopes));
    }
  }

  /** No listing with this server parameter ("" for none) shows a tool the call would refuse. */
  ghost predicate ListsOnlyCallable(caller: Caller, policy: Policy, server: string) {
    forall tool: Tool :: Discoverable(caller, policy, server, tool) ==> Callable(caller, policy, tool)
  }

  /** Exactly the callers for whom listing never shows an uncallable tool, whatever the
      tenant's overlay: those with a tool scope, and those with scopes that reach no server. */
  lemma SafeListing(caller: Caller, policy: Policy)
    requires MayInvoke(caller)
    ensures var safe := HasToolScope(caller) || (NonEmpty(caller.scopes) != [] && !ReachesServer(caller.scopes));
            && (safe ==> ListsOnlyCallable(caller, policy, ""))
            && (ListsOnlyCallable(caller, NoPolicy, "") ==> safe)
  {
    hide AuthorizeToolCall, FilterAvailableTools;
    if HasToolScope(caller) {
      forall tool: Tool | Discoverable(caller, policy, "", tool) ensures Callable(caller, policy, tool) {
        DiscoveryImpliesInvocation([tool], policy, caller, tool);
      }
    } else if NonEmpty(caller.scopes) == [] {
      UnscopedListing(caller, NoPolicy, Tool("s", "t", [], false));
    } else if ReachesServer(caller.scopes) {
      var server := ReachedServer(caller.scopes);
      var tool := ServerScopedListing(caller, NoPolicy, server, "t", "");
    }
  }

  /** With a tool scope, what a named server lists is callable exactly if the caller has the
      grant for that server, which the listing itself does not look at. */
  lemma NamedServerCallable(caller: Caller, policy: Policy, tool: Tool)
    requires MayInvoke(caller) && HasToolScope(caller) && tool.server != ""
    requires Discoverable(caller, policy, tool.server, tool)
    ensures Callable(caller, policy, tool) <==> GrantsServer(caller.scopes, tool.server)
  {
    var m := ScopeFilter(NonEmpty(caller.scopes), tool.server);
    var s :| s in tool.scopes && s in m.scopes.value;
    var scopes, required := set x | x in caller.scopes, set x | x in tool.scopes;
    assert s in required * scopes;
    assert GetTool([tool], tool.server, tool.name) == Some(tool);
  }

  /** A tool the scopes select is listed wherever the overlay has it. */
  lemma NamedServerLists(caller: Caller, policy: Policy, server: string, name: string) returns (tool: Tool)
    requires HasToolScope(caller) && server != "" && IsToolAvailable(policy, server, name)
    ensures tool.server == server && tool.name == name && Discoverable(caller, policy, server, tool)
  {
    var s :| s in ToolScopes(NonEmpty(caller.scopes));
    tool := Tool(server, name, [s], false);
    assert s in tool.scopes;
  }

  /** A listing for a named server shows only callable tools, whatever the overlay, for
      exactly the callers with a tool scope and the grant for that server. */
  lemma SafeNamedListing(caller: Caller, policy: Policy, server: string)
    requires MayInvoke(caller) && server != ""
    ensures var safe := HasToolScope(caller) && GrantsServer(caller.scopes, server);
            && (safe ==> ListsOnlyCallable(caller, policy, server))
            && (ListsOnlyCallable(caller, NoPolicy, server) ==> safe)
  {
    hide AuthorizeToolCall, FilterAvailableTools, HasToolScope;
    if HasToolScope(caller) {
      forall tool: Tool | GrantsServer(caller.scopes, server) && Discoverable(caller, policy, server, tool)
        ensures Callable(caller, policy, tool)
      {
        NamedServerCallable(caller, policy, tool);
      }
      var tool := NamedServerLists(caller, NoPolicy, server, "t");
      NamedServerCallable(caller, NoPolicy, tool);
    } else {
      var tool := ServerScopedListing(caller, NoPolicy, server, "t", server);
    }
  }
}
