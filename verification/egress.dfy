/** Outbound connections: the allowlist evaluation of services/egress_policy.py and the
    address pinning of services/egress_transport.py. */
module Egress {
  import opened Wrappers

  datatype Ip = Ip(version: int, value: nat)

  /** An address block of one IP version, from its first to its last address. */
  datatype Network = Network(version: int, first: nat, last: nat)

  /** What the ipaddress and fnmatch libraries decide. */
  datatype Library = Library(
    disallowed: Ip -> bool,                    // the SSRF denylist
    lower: string -> string,                   // str.lower
    glob: (string, string) -> bool,            // fnmatch(host, pattern)
    network: string -> Option<Network>)        // a CIDR or address literal, else None

  datatype ParsedList = ParsedList(hostPatterns: seq<string>, networks: seq<Network>)

  predicate IsEmpty(list: ParsedList) {
    list.hostPatterns == [] && list.networks == []
  }

  predicate IsPattern(entry: string) {
    '*' in entry || '?' in entry
  }

  predicate Contains(network: Network, ip: Ip) {
    ip.version == network.version && network.first <= ip.value <= network.last
  }

  predicate PatternMatches(lib: Library, pattern: string, host: string) {
    if IsPattern(pattern) then lib.glob(host, pattern) else host == pattern
  }

  predicate HostListed(lib: Library, list: ParsedList, host: string) {
    exists i :: 0 <= i < |list.hostPatterns| && PatternMatches(lib, list.hostPatterns[i], lib.lower(host))
  }

  predicate AddressListed(list: ParsedList, ip: Ip) {
    exists i :: 0 <= i < |list.networks| && Contains(list.networks[i], ip)
  }

  predicate Matches(lib: Library, list: ParsedList, host: string, ips: seq<Ip>) {
    HostListed(lib, list, host) || exists i :: 0 <= i < |ips| && AddressListed(list, ips[i])
  }

  /** Some pattern is the host, in lower case, or has a wildcard and matches it. */
  ghost predicate NamesHost(lib: Library, list: ParsedList, host: string) {
    exists p :: p in list.hostPatterns && if '*' in p || '?' in p then lib.glob(lib.lower(host), p) else lib.lower(host) == p
  }

  /** Some block of the address's version reaches from below it to above it. */
  ghost predicate HoldsAddress(list: ParsedList, ip: Ip) {
    exists n :: n in list.networks && n.version == ip.version && n.first <= ip.value <= n.last
  }

  lemma ListedExactly(lib: Library, list: ParsedList, host: string)
    ensures HostListed(lib, list, host) <==> NamesHost(lib, list, host)
    ensures forall ip :: AddressListed(list, ip) <==> HoldsAddress(list, ip)
  {
    if p :| p in list.hostPatterns && if '*' in p || '?' in p then lib.glob(lib.lower(host), p) else lib.lower(host) == p {
      var i :| 0 <= i < |list.hostPatterns| && list.hostPatterns[i] == p;
      assert PatternMatches(lib, list.hostPatterns[i], lib.lower(host));
    }
    forall ip | HoldsAddress(list, ip)
      ensures AddressListed(list, ip)
    {
      var n :| n in list.networks && n.version == ip.version && n.first <= ip.value <= n.last;
      var i :| 0 <= i < |list.networks| && list.networks[i] == n;
      assert Contains(list.networks[i], ip);
    }
  }

  method MatchesList(lib: Library, list: ParsedList, host: string, ips: seq<Ip>) returns (matches: bool)
    ensures matches <==> NamesHost(lib, list, host) || exists ip :: ip in ips && HoldsAddress(list, ip)
    ensures matches <==> Matches(lib, list, host, ips)
  {
    ListedExactly(lib, list, host);
    hide NamesHost, HoldsAddress;
    var lowered := lib.lower(host);
    for i := 0 to |list.hostPatterns|
      invariant forall j :: 0 <= j < i ==> !PatternMatches(lib, list.hostPatterns[j], lowered)
    {
      var pattern := list.hostPatterns[i];
      if IsPattern(pattern) {
        if lib.glob(lowered, pattern) {
          assert PatternMatches(lib, list.hostPatterns[i], lowered);
          return true;
        }
      } else if lowered == pattern {
        assert PatternMatches(lib, list.hostPatterns[i], lowered);
        return true;
      }
    }
    if list.networks != [] {
      for i := 0 to |ips|
        invariant forall j :: 0 <= j < i ==> !AddressListed(list, ips[j])
      {
        for n := 0 to |list.networks|
          invariant forall m :: 0 <= m < n ==> !Contains(list.networks[m], ips[i])
        {
          if ips[i].version == list.networks[n].version && list.networks[n].first <= ips[i].value <= list.networks[n].last {
            assert Contains(list.networks[n], ips[i]) && AddressListed(list, ips[i]);
            return true;
          }
        }
      }
    }
    return false;
  }

  /** The entries that are host names, respectively address blocks, in their order. */
  function Hosts(lib: Library, entries: seq<string>): seq<string> {
    if entries == [] then []
    else
      var before, entry := Hosts(lib, entries[..|entries| - 1]), entries[|entries| - 1];
      if entry != "" && lib.network(entry).None? then before + [entry] else before
  }

  function Blocks(lib: Library, entries: seq<string>): seq<Network> {
    if entries == [] then []
    else
      var before, entry := Blocks(lib, entries[..|entries| - 1]), entries[|entries| - 1];
      if entry != "" && lib.network(entry).Some? then before + [lib.network(entry).value] else before
  }

  /** Which entries those are. */
  lemma {:induction false} ParsedExactly(lib: Library, entries: seq<string>)
    ensures forall p :: p in Hosts(lib, entries) <==> p in entries && p != "" && lib.network(p).None?
    ensures forall n :: n in Blocks(lib, entries) <==> exists entry :: entry in entries && entry != "" && lib.network(entry) == Some(n)
  {
    if entries != [] {
      var before, last := entries[..|entries| - 1], entries[|entries| - 1];
      ParsedExactly(lib, before);
      assert forall entry :: entry in entries <==> entry in before || entry == last;
    }
  }

  method ParseList(lib: Library, entries: seq<string>) returns (list: ParsedList)
    ensures list == ParsedList(Hosts(lib, entries), Blocks(lib, entries))
  {
    var hostPatterns: seq<string>, networks: seq<Network> := [], [];
    for i := 0 to |entries|
      invariant hostPatterns == Hosts(lib, entries[..i]) && networks == Blocks(lib, entries[..i])
    {
      assert entries[..i + 1][..i] == entries[..i];
      var entry := entries[i];
      if entry == "" {
        continue;
      }
      var parsed := lib.network(entry);
      if parsed.Some? {
        networks := networks + [parsed.value];
      } else {
        hostPatterns := hostPatterns + [entry];
      }
    }
    assert entries[..|entries|] == entries;
    list := ParsedList(hostPatterns, networks);
  }

  /** A list is empty exactly when it has no entry with any text. */
  lemma {:induction false} EmptyList(lib: Library, entries: seq<string>)
    ensures IsEmpty(ParsedList(Hosts(lib, entries), Blocks(lib, entries))) <==> forall i :: 0 <= i < |entries| ==> entries[i] == ""
  {
    if entries != [] {
      EmptyList(lib, entries[..|entries| - 1]);
    }
  }

  datatype Rules = Rules(enabled: bool, defaultDeny: bool, globalRule: ParsedList, tenantRule: ParsedList, requireTenant: bool)

  method BuildRules(lib: Library, enabled: bool, defaultDeny: bool, globalEntries: seq<string>, tenantEntries: seq<string>)
    returns (rules: Rules)
    ensures rules == Rules(enabled, defaultDeny, ParsedList(Hosts(lib, globalEntries), Blocks(lib, globalEntries)),
                           ParsedList(Hosts(lib, tenantEntries), Blocks(lib, tenantEntries)), false)
  {
    var globalRule := ParseList(lib, globalEntries);
    var tenantRule := ParseList(lib, tenantEntries);
    rules := Rules(enabled, defaultDeny, globalRule, tenantRule, false);
  }

  /** Sandbox code: always active, deny by default, every host an explicit tenant grant. */
  method BuildCodeEgressRules(lib: Library, globalEntries: seq<string>, tenantEntries: seq<string>) returns (rules: Rules)
    ensures rules.enabled && rules.defaultDeny && rules.requireTenant && IsActive(rules)
    ensures rules.globalRule == ParsedList(Hosts(lib, globalEntries), Blocks(lib, globalEntries))
    ensures rules.tenantRule == ParsedList(Hosts(lib, tenantEntries), Blocks(lib, tenantEntries))
    ensures IsEmpty(rules.tenantRule) <==> forall i :: 0 <= i < |tenantEntries| ==> tenantEntries[i] == ""
  {
    var globalRule := ParseList(lib, globalEntries);
    var tenantRule := ParseList(lib, tenantEntries);
    EmptyList(lib, tenantEntries);
    rules := Rules(true, true, globalRule, tenantRule, true);
  }

  predicate HasAnyAllowlist(rules: Rules) {
    !IsEmpty(rules.globalRule) || !IsEmpty(rules.tenantRule)
  }

  predicate IsActive(rules: Rules) {
    rules.enabled && (rules.defaultDeny || HasAnyAllowlist(rules))
  }

  datatype Verdict = Allowed | DisallowedAddress(ip: Ip) | TenantGrantMissing | NoAllowlist | NotInGlobal | NotInTenant

  /** The first denylisted address, if any. */
  function FirstDisallowed(lib: Library, ips: seq<Ip>): (found: Option<Ip>)
    ensures found.None? <==> forall i :: 0 <= i < |ips| ==> !lib.disallowed(ips[i])
  {
    if ips == [] then None else if lib.disallowed(ips[0]) then Some(ips[0]) else FirstDisallowed(lib, ips[1..])
  }

  function Evaluate(lib: Library, rules: Rules, host: string, ips: seq<Ip>): Verdict {
    if !IsActive(rules) then Allowed
    else if FirstDisallowed(lib, ips).Some? then DisallowedAddress(FirstDisallowed(lib, ips).value)
    else if rules.requireTenant && IsEmpty(rules.tenantRule) then TenantGrantMissing
    else if !HasAnyAllowlist(rules) then NoAllowlist
    else if !IsEmpty(rules.globalRule) && !Matches(lib, rules.globalRule, host, ips) then NotInGlobal
    else if !IsEmpty(rules.tenantRule) && !Matches(lib, rules.tenantRule, host, ips) then NotInTenant
    else Allowed
  }

  const NoList := ParsedList([], [])

  /** Nothing is enforced: switched off, or neither a default denial nor any list. */
  predicate Inactive(rules: Rules) {
    !rules.enabled || (!rules.defaultDeny && rules.globalRule == NoList && rules.tenantRule == NoList)
  }

  /** What a connection needs: no denylisted address, some list, the tenant's where it is
      mandatory, and each non-empty list naming the host or holding one of the addresses. */
  ghost predicate Accepted(lib: Library, rules: Rules, host: string, ips: seq<Ip>) {
    || Inactive(rules)
    || (&& (forall ip :: ip in ips ==> !lib.disallowed(ip))
        && !(rules.globalRule == NoList && rules.tenantRule == NoList) && !(rules.requireTenant && rules.tenantRule == NoList)
        && (rules.globalRule == NoList || NamesHost(lib, rules.globalRule, host) || exists ip :: ip in ips && HoldsAddress(rules.globalRule, ip))
        && (rules.tenantRule == NoList || NamesHost(lib, rules.tenantRule, host) || exists ip :: ip in ips && HoldsAddress(rules.tenantRule, ip)))
  }

  lemma MatchesExactly(lib: Library, list: ParsedList, host: string, ips: seq<Ip>)
    ensures Matches(lib, list, host, ips) <==> NamesHost(lib, list, host) || exists ip :: ip in ips && HoldsAddress(list, ip)
  {
    ListedExactly(lib, list, host);
    hide NamesHost, HoldsAddress, HostListed, AddressListed;
    if ip :| ip in ips && HoldsAddress(list, ip) {
      var i :| 0 <= i < |ips| && ips[i] == ip;
      assert AddressListed(list, ips[i]);
    }
  }

  lemma AcceptedExactly(lib: Library, rules: Rules, host: string, ips: seq<Ip>)
    ensures IsActive(rules) <==> !Inactive(rules)
    ensures Evaluate(lib, rules, host, ips).Allowed? <==> Accepted(lib, rules, host, ips)
  {
    hide NamesHost, HoldsAddress, Matches;
    MatchesExactly(lib, rules.globalRule, host, ips);
    MatchesExactly(lib, rules.tenantRule, host, ips);
    assert rules.globalRule == NoList <==> IsEmpty(rules.globalRule);
    assert rules.tenantRule == NoList <==> IsEmpty(rules.tenantRule);
  }

  /** A refusal names the first test that failed. */
  lemma RefusedFor(lib: Library, rules: Rules, host: string, ips: seq<Ip>)
    requires !Inactive(rules)
    ensures var clean := forall ip :: ip in ips ==> !lib.disallowed(ip);
            var granted := !(rules.requireTenant && rules.tenantRule == NoList);
            var listed := !(rules.globalRule == NoList && rules.tenantRule == NoList);
            var inGlobal := rules.globalRule == NoList || NamesHost(lib, rules.globalRule, host)
                            || exists ip :: ip in ips && HoldsAddress(rules.globalRule, ip);
            var inTenant := rules.tenantRule == NoList || NamesHost(lib, rules.tenantRule, host)
                            || exists ip :: ip in ips && HoldsAddress(rules.tenantRule, ip);
            match Evaluate(lib, rules, host, ips)
            case Allowed => clean && granted && listed && inGlobal && inTenant
            case DisallowedAddress(bad) => exists i :: 0 <= i < |ips| && ips[i] == bad && lib.disallowed(bad)
                                                       && forall j :: 0 <= j < i ==> !lib.disallowed(ips[j])
            case TenantGrantMissing => clean && !granted
            case NoAllowlist => clean && granted && !listed
            case NotInGlobal => clean && granted && listed && !inGlobal
            case NotInTenant => clean && granted && listed && inGlobal && !inTenant
  {
    hide NamesHost, HoldsAddress, Matches;
    MatchesExactly(lib, rules.globalRule, host, ips);
    MatchesExactly(lib, rules.tenantRule, host, ips);
    FirstIsFirst(lib, ips);
    assert rules.globalRule == NoList <==> IsEmpty(rules.globalRule);
    assert rules.tenantRule == NoList <==> IsEmpty(rules.tenantRule);
  }

  lemma {:induction false} FirstIsFirst(lib: Library, ips: seq<Ip>)
    ensures var found := FirstDisallowed(lib, ips);
            found.Some? ==> exists i :: 0 <= i < |ips| && ips[i] == found.value && lib.disallowed(found.value)
                                        && forall j :: 0 <= j < i ==> !lib.disallowed(ips[j])
  {
    if ips != [] && !lib.disallowed(ips[0]) && FirstDisallowed(lib, ips).Some? {
      FirstIsFirst(lib, ips[1..]);
      var found := FirstDisallowed(lib, ips[1..]).value;
      var k :| 0 <= k < |ips[1..]| && ips[1..][k] == found && forall j :: 0 <= j < k ==> !lib.disallowed(ips[1..][j]);
      var i := k + 1;
      assert ips[i] == found;
      forall j | 0 <= j < i
        ensures !lib.disallowed(ips[j])
      {
        assert j > 0 ==> ips[j] == ips[1..][j - 1];
      }
    }
  }

  predicate FirstToPass(lib: Library, rules: Rules, host: string, ips: seq<Ip>, i: nat) {
    && i < |ips| && Evaluate(lib, rules, host, [ips[i]]).Allowed?
    && forall j :: 0 <= j < i ==> !Evaluate(lib, rules, host, [ips[j]]).Allowed?
  }

  /** The first address that passes the policy on its own. */
  method SelectPinnedIp(lib: Library, rules: Rules, host: string, ips: seq<Ip>) returns (pinned: Option<Ip>)
    ensures pinned.Some? ==> exists i :: 0 <= i < |ips| && ips[i] == pinned.value && FirstToPass(lib, rules, host, ips, i)
    ensures pinned.None? ==> forall i :: 0 <= i < |ips| ==> !Evaluate(lib, rules, host, [ips[i]]).Allowed?
  {
    for i := 0 to |ips|
      invariant forall j :: 0 <= j < i ==> !Evaluate(lib, rules, host, [ips[j]]).Allowed?
    {
      if Evaluate(lib, rules, host, [ips[i]]).Allowed? {
        assert FirstToPass(lib, rules, host, ips, i);
        return Some(ips[i]);
      }
    }
    return None;
  }

  datatype Connection = Direct | Pinned(ip: Ip) | Blocked

  /** Resolve, evaluate, pin: where a request may connect to, given what its host resolves to. */
  method HandleRequest(lib: Library, rules: Rules, host: string, ips: seq<Ip>) returns (connection: Connection)
    ensures connection.Direct? <==> Inactive(rules)
    ensures connection.Blocked? <==>
              !Inactive(rules) && !(Accepted(lib, rules, host, ips) && exists i :: 0 <= i < |ips| && Accepted(lib, rules, host, [ips[i]]))
    ensures connection.Pinned? ==>
              exists i :: 0 <= i < |ips| && ips[i] == connection.ip && Accepted(lib, rules, host, [ips[i]])
                          && forall j :: 0 <= j < i ==> !Accepted(lib, rules, host, [ips[j]])
    ensures connection.Pinned? ==> connection.ip in ips && Clears(lib, rules, host, connection.ip)
    ensures connection.Blocked? <==>
              IsActive(rules) && !(Evaluate(lib, rules, host, ips).Allowed? && exists i :: 0 <= i < |ips| && Clears(lib, rules, host, ips[i]))
  {
    AcceptedExactly(lib, rules, host, ips);
    forall i | 0 <= i < |ips|
      ensures Evaluate(lib, rules, host, [ips[i]]).Allowed? <==> Accepted(lib, rules, host, [ips[i]])
      ensures IsActive(rules) ==> (Evaluate(lib, rules, host, [ips[i]]).Allowed? <==> Clears(lib, rules, host, ips[i]))
    {
      AcceptedExactly(lib, rules, host, [ips[i]]);
      if IsActive(rules) {
        ClearsAlone(lib, rules, host, ips[i]);
      }
    }
    hide Evaluate, Accepted, Clears, IsActive, Inactive;
    if !IsActive(rules) {
      return Direct;
    }
    if !Evaluate(lib, rules, host, ips).Allowed? {
      return Blocked;
    }
    var pinned := SelectPinnedIp(lib, rules, host, ips);
    if pinned.None? {
      return Blocked;
    }
    return Pinned(pinned.value);
  }

  // ---- What pinning guarantees ------------------------------------------------------------------

  /** A list lets an address through: it is empty, names the host, or holds the address. */
  predicate Admits(lib: Library, list: ParsedList, host: string, ip: Ip) {
    IsEmpty(list) || HostListed(lib, list, host) || AddressListed(list, ip)
  }

  /** Everything active rules demand of one address. */
  predicate Clears(lib: Library, rules: Rules, host: string, ip: Ip) {
    && !lib.disallowed(ip)
    && HasAnyAllowlist(rules) && (rules.requireTenant ==> !IsEmpty(rules.tenantRule))
    && Admits(lib, rules.globalRule, host, ip) && Admits(lib, rules.tenantRule, host, ip)
  }

  lemma MatchesAlone(lib: Library, list: ParsedList, host: string, ip: Ip)
    ensures Matches(lib, list, host, [ip]) <==> HostListed(lib, list, host) || AddressListed(list, ip)
  {
    assert [ip][0] == ip;
  }

  /** Passing alone means clearing the denylist and both lists. */
  lemma ClearsAlone(lib: Library, rules: Rules, host: string, ip: Ip)
    requires IsActive(rules)
    ensures Evaluate(lib, rules, host, [ip]).Allowed? <==> Clears(lib, rules, host, ip)
  {
    MatchesAlone(lib, rules.globalRule, host, ip);
    MatchesAlone(lib, rules.tenantRule, host, ip);
    assert FirstDisallowed(lib, [ip]).Some? <==> lib.disallowed(ip) by {
      assert [ip][0] == ip;
    }
  }

  /** The rules of code egress for these entries. */
  function CodeRules(lib: Library, globalEntries: seq<string>, tenantEntries: seq<string>): Rules {
    Rules(true, true, ParsedList(Hosts(lib, globalEntries), Blocks(lib, globalEntries)),
          ParsedList(Hosts(lib, tenantEntries), Blocks(lib, tenantEntries)), true)
  }

  predicate AllBlank(entries: seq<string>) {
    forall i :: 0 <= i < |entries| ==> entries[i] == ""
  }

  /** Code egress with only blank tenant entries reaches nothing, whatever the global list. */
  lemma NoGrantNoEgress(lib: Library, globalEntries: seq<string>, tenantEntries: seq<string>, host: string, ips: seq<Ip>)
    requires AllBlank(tenantEntries)
    ensures var rules := CodeRules(lib, globalEntries, tenantEntries);
            IsActive(rules) && !Evaluate(lib, rules, host, ips).Allowed?
    ensures forall ip :: !Clears(lib, CodeRules(lib, globalEntries, tenantEntries), host, ip)
  {
    EmptyList(lib, tenantEntries);
  }

  /** The settings of the deployment; a transport may have none. */
  datatype Settings = Settings(enabled: bool, defaultDeny: bool, globalEntries: seq<string>)

  /** The rules a transport resolves before each request: its static ones if it has any. */
  method ResolveRules(lib: Library, fixed: Option<Rules>, settings: Option<Settings>, tenantEntries: seq<string>, codeEgress: bool)
    returns (rules: Rules)
    ensures fixed.Some? ==> rules == fixed.value
    ensures fixed.None? ==> Resolved(lib, settings, tenantEntries, codeEgress, rules)
  {
    if fixed.Some? {
      return fixed.value;
    }
    if settings.None? {
      if codeEgress {
        rules := BuildCodeEgressRules(lib, [], []);
      } else {
        rules := BuildRules(lib, false, false, [], []);
      }
    } else if codeEgress {
      rules := BuildCodeEgressRules(lib, settings.value.globalEntries, tenantEntries);
    } else {
      rules := BuildRules(lib, settings.value.enabled, settings.value.defaultDeny, settings.value.globalEntries, tenantEntries);
    }
  }

  /** The rules a policy source stands for. */
  predicate Resolved(lib: Library, settings: Option<Settings>, tenantEntries: seq<string>, codeEgress: bool, rules: Rules) {
    var known := if settings.Some? then tenantEntries else [];
    var s := if settings.Some? then settings.value else Settings(false, false, []);
    if codeEgress then rules == CodeRules(lib, s.globalEntries, known)
    else
      && rules == Rules(s.enabled, s.defaultDeny, CodeRules(lib, s.globalEntries, known).globalRule,
                        CodeRules(lib, s.globalEntries, known).tenantRule, false)
      && (settings.None? ==> !IsActive(rules))
  }

  /** A request of sandbox code, from the configured lists to the connection: whatever the
      settings are, it is never passed on unchecked, and without a tenant grant it is blocked. */
  method ConnectFromCode(lib: Library, settings: Option<Settings>, tenantEntries: seq<string>, host: string, ips: seq<Ip>)
    returns (connection: Connection)
    ensures !connection.Direct?
    ensures settings.None? || AllBlank(tenantEntries) ==> connection.Blocked?
    ensures settings.Some? ==>
              (connection.Pinned? <==> && (forall ip :: ip in ips ==> !lib.disallowed(ip))
                                       && exists ip :: ip in ips && FreeToReach(lib, settings.value.globalEntries, tenantEntries, host, ip))
    ensures settings.Some? && connection.Pinned? ==>
              exists i :: 0 <= i < |ips| && ips[i] == connection.ip
                          && FreeToReach(lib, settings.value.globalEntries, tenantEntries, host, ips[i])
                          && forall j :: 0 <= j < i ==> !FreeToReach(lib, settings.value.globalEntries, tenantEntries, host, ips[j])
  {
    var rules := ResolveRules(lib, None, settings, tenantEntries, true);
    if settings.None? {
      NoGrantNoEgress(lib, [], [], host, ips);
    } else {
      if AllBlank(tenantEntries) {
        NoGrantNoEgress(lib, settings.value.globalEntries, tenantEntries, host, ips);
      }
      CodeAccepts(lib, settings.value.globalEntries, tenantEntries, host, ips);
    }
    hide Accepted, Clears, FreeToReach;
    connection := HandleRequest(lib, rules, host, ips);
  }

  /** Some entry that is no address block is the host or a pattern that matches it, or some
      block reaches from below the address to above it. */
  ghost predicate Grants(lib: Library, entries: seq<string>, host: string, ip: Ip) {
    exists entry :: entry in entries && entry != "" &&
      match lib.network(entry)
      case Some(block) => block.version == ip.version && block.first <= ip.value <= block.last
      case None => if '*' in entry || '?' in entry then lib.glob(lib.lower(host), entry) else lib.lower(host) == entry
  }

  /** The tenant's entries grant the host or the address, and so do the global ones if any. */
  ghost predicate FreeToReach(lib: Library, globalEntries: seq<string>, tenantEntries: seq<string>, host: string, ip: Ip) {
    && !lib.disallowed(ip) && Grants(lib, tenantEntries, host, ip)
    && ((forall entry :: entry in globalEntries ==> entry == "") || Grants(lib, globalEntries, host, ip))
  }

  lemma GrantsExactly(lib: Library, entries: seq<string>, host: string, ip: Ip)
    ensures var list := ParsedList(Hosts(lib, entries), Blocks(lib, entries));
            && (Grants(lib, entries, host, ip) <==> NamesHost(lib, list, host) || HoldsAddress(list, ip))
            && (list == NoList <==> forall entry :: entry in entries ==> entry == "")
  {
    var list := ParsedList(Hosts(lib, entries), Blocks(lib, entries));
    ParsedExactly(lib, entries);
    EmptyList(lib, entries);
    assert list == NoList <==> IsEmpty(list);
    hide Hosts, Blocks;
    if Grants(lib, entries, host, ip) {
      var entry :| entry in entries && entry != "" &&
        match lib.network(entry)
        case Some(block) => block.version == ip.version && block.first <= ip.value <= block.last
        case None => if '*' in entry || '?' in entry then lib.glob(lib.lower(host), entry) else lib.lower(host) == entry;
      if lib.network(entry).Some? {
        assert lib.network(entry).value in list.networks;
      } else {
        assert entry in list.hostPatterns;
      }
    }
  }

  /** Code egress from the entries: one address passes alone exactly if it is free to reach,
      and a connection all of whose addresses are off the denylist is accepted if one is. */
  lemma CodeAccepts(lib: Library, globalEntries: seq<string>, tenantEntries: seq<string>, host: string, ips: seq<Ip>)
    ensures var rules := CodeRules(lib, globalEntries, tenantEntries);
            && !Inactive(rules)
            && (forall ip :: Accepted(lib, rules, host, [ip]) <==> FreeToReach(lib, globalEntries, tenantEntries, host, ip))
            && (Accepted(lib, rules, host, ips) ==> forall ip :: ip in ips ==> !lib.disallowed(ip))
            && ((forall ip :: ip in ips ==> !lib.disallowed(ip)) ==>
                  forall ip :: ip in ips && FreeToReach(lib, globalEntries, tenantEntries, host, ip) ==> Accepted(lib, rules, host, ips))
  {
    var rules := CodeRules(lib, globalEntries, tenantEntries);
    hide Grants, NamesHost, HoldsAddress, Hosts, Blocks;
    forall ip
      ensures Accepted(lib, rules, host, [ip]) <==> FreeToReach(lib, globalEntries, tenantEntries, host, ip)
      ensures FreeToReach(lib, globalEntries, tenantEntries, host, ip) ==>
                && (rules.globalRule == NoList || NamesHost(lib, rules.globalRule, host) || HoldsAddress(rules.globalRule, ip))
                && rules.tenantRule != NoList && (NamesHost(lib, rules.tenantRule, host) || HoldsAddress(rules.tenantRule, ip))
    {
      GrantsExactly(lib, tenantEntries, host, ip);
      GrantsExactly(lib, globalEntries, host, ip);
      NothingGranted(lib, tenantEntries, host, ip);
      assert forall x :: x in [ip] <==> x == ip;
    }
  }

  /** A request to a downstream server, under the operator's settings: passed on as it is when
      nothing is enforced, and otherwise connected to the first address that is off the
      denylist and granted by each list that has entries, if every address is off it. */
  method ConnectDownstream(lib: Library, settings: Settings, tenantEntries: seq<string>, host: string, ips: seq<Ip>)
    returns (connection: Connection)
    ensures connection.Direct? <==> !settings.enabled || (!settings.defaultDeny && AllBlank(settings.globalEntries + tenantEntries))
    ensures connection.Pinned? <==>
              && !connection.Direct? && (forall ip :: ip in ips ==> !lib.disallowed(ip))
              && exists ip :: ip in ips && MayReach(lib, settings.globalEntries, tenantEntries, host, ip)
    ensures connection.Pinned? ==>
              exists i :: 0 <= i < |ips| && ips[i] == connection.ip
                          && MayReach(lib, settings.globalEntries, tenantEntries, host, ips[i])
                          && forall j :: 0 <= j < i ==> !MayReach(lib, settings.globalEntries, tenantEntries, host, ips[j])
  {
    var rules := ResolveRules(lib, None, Some(settings), tenantEntries, false);
    RulesAccept(lib, settings, tenantEntries, host, ips);
    hide Accepted, Clears, MayReach, Inactive;
    connection := HandleRequest(lib, rules, host, ips);
  }

  /** Some list has an entry, and each that has one grants the host or the address. */
  ghost predicate MayReach(lib: Library, globalEntries: seq<string>, tenantEntries: seq<string>, host: string, ip: Ip) {
    && !lib.disallowed(ip) && !AllBlank(globalEntries + tenantEntries)
    && (AllBlank(globalEntries) || Grants(lib, globalEntries, host, ip))
    && (AllBlank(tenantEntries) || Grants(lib, tenantEntries, host, ip))
  }

  function DownstreamRules(lib: Library, s: Settings, tenantEntries: seq<string>): Rules {
    Rules(s.enabled, s.defaultDeny, CodeRules(lib, s.globalEntries, tenantEntries).globalRule,
          CodeRules(lib, s.globalEntries, tenantEntries).tenantRule, false)
  }

  lemma RulesAccept(lib: Library, s: Settings, tenantEntries: seq<string>, host: string, ips: seq<Ip>)
    ensures var rules := DownstreamRules(lib, s, tenantEntries);
            && (Inactive(rules) <==> !s.enabled || (!s.defaultDeny && AllBlank(s.globalEntries + tenantEntries)))
            && (!Inactive(rules) ==>
                  forall ip :: Accepted(lib, rules, host, [ip]) <==> MayReach(lib, s.globalEntries, tenantEntries, host, ip))
            && (!Inactive(rules) && Accepted(lib, rules, host, ips) ==> forall ip :: ip in ips ==> !lib.disallowed(ip))
            && ((forall ip :: ip in ips ==> !lib.disallowed(ip)) ==>
                  forall ip :: ip in ips && MayReach(lib, s.globalEntries, tenantEntries, host, ip) ==> Accepted(lib, rules, host, ips))
  {
    var rules := DownstreamRules(lib, s, tenantEntries);
    BlankLists(lib, s.globalEntries, tenantEntries);
    hide Grants, NamesHost, HoldsAddress, Hosts, Blocks, AllBlank;
    forall ip
      ensures !Inactive(rules) ==> (Accepted(lib, rules, host, [ip]) <==> MayReach(lib, s.globalEntries, tenantEntries, host, ip))
      ensures MayReach(lib, s.globalEntries, tenantEntries, host, ip) ==>
                && (rules.globalRule == NoList || NamesHost(lib, rules.globalRule, host) || HoldsAddress(rules.globalRule, ip))
                && (rules.tenantRule == NoList || NamesHost(lib, rules.tenantRule, host) || HoldsAddress(rules.tenantRule, ip))
    {
      GrantsExactly(lib, tenantEntries, host, ip);
      GrantsExactly(lib, s.globalEntries, host, ip);
      assert forall x :: x in [ip] <==> x == ip;
    }
  }

  lemma BlankLists(lib: Library, globalEntries: seq<string>, tenantEntries: seq<string>)
    ensures var rules := CodeRules(lib, globalEntries, tenantEntries);
            && (rules.globalRule == NoList <==> AllBlank(globalEntries)) && (rules.tenantRule == NoList <==> AllBlank(tenantEntries))
            && (AllBlank(globalEntries + tenantEntries) <==> AllBlank(globalEntries) && AllBlank(tenantEntries))
  {
    EmptyList(lib, globalEntries);
    EmptyList(lib, tenantEntries);
    var rules, both := CodeRules(lib, globalEntries, tenantEntries), globalEntries + tenantEntries;
    assert rules.globalRule == NoList <==> IsEmpty(rules.globalRule);
    assert rules.tenantRule == NoList <==> IsEmpty(rules.tenantRule);
    assert forall i :: 0 <= i < |globalEntries| ==> both[i] == globalEntries[i];
    assert forall i :: 0 <= i < |tenantEntries| ==> both[|globalEntries| + i] == tenantEntries[i];
  }

  lemma NothingGranted(lib: Library, entries: seq<string>, host: string, ip: Ip)
    ensures (forall entry :: entry in entries ==> entry == "") ==> !Grants(lib, entries, host, ip)
  {
  }

  // ---- When pinning succeeds ----------------------------------------------------------------

  /** An accepted connection has an address to pin if one address is admitted by both lists. */
  lemma AdmittedByBoth(lib: Library, rules: Rules, host: string, ips: seq<Ip>, i: nat)
    requires IsActive(rules) && Evaluate(lib, rules, host, ips).Allowed? && i < |ips|
    ensures Clears(lib, rules, host, ips[i])
       <==> Admits(lib, rules.globalRule, host, ips[i]) && Admits(lib, rules.tenantRule, host, ips[i])
  {
    assert !lib.disallowed(ips[i]);
  }

  /** An accepted connection can always be pinned when there is an address and one of the
      lists is empty or names the host. */
  lemma OneListByNameSuffices(lib: Library, rules: Rules, host: string, ips: seq<Ip>)
    requires IsActive(rules) && Evaluate(lib, rules, host, ips).Allowed? && ips != []
    requires IsEmpty(rules.globalRule) || HostListed(lib, rules.globalRule, host)
             || IsEmpty(rules.tenantRule) || HostListed(lib, rules.tenantRule, host)
    ensures exists i :: 0 <= i < |ips| && Clears(lib, rules, host, ips[i])
  {
    forall i | 0 <= i < |ips|
      ensures Clears(lib, rules, host, ips[i])
         <==> Admits(lib, rules.globalRule, host, ips[i]) && Admits(lib, rules.tenantRule, host, ips[i])
    {
      AdmittedByBoth(lib, rules, host, ips, i);
    }
    var other := if IsEmpty(rules.globalRule) || HostListed(lib, rules.globalRule, host) then rules.tenantRule else rules.globalRule;
    if IsEmpty(other) || HostListed(lib, other, host) {
      assert Admits(lib, rules.globalRule, host, ips[0]) && Admits(lib, rules.tenantRule, host, ips[0]);
    } else {
      var i :| 0 <= i < |ips| && AddressListed(other, ips[i]);
      assert Admits(lib, rules.globalRule, host, ips[i]) && Admits(lib, rules.tenantRule, host, ips[i]);
    }
  }

  /** The addresses of one list that may be used at all are all in the other. */
  ghost predicate Covers(lib: Library, inner: ParsedList, outer: ParsedList) {
    forall ip :: !lib.disallowed(ip) && AddressListed(inner, ip) ==> AddressListed(outer, ip)
  }

  /** One list is empty or names the host, or one list's addresses are within the other's. */
  ghost predicate ListsAgree(lib: Library, rules: Rules, host: string) {
    || IsEmpty(rules.globalRule) || HostListed(lib, rules.globalRule, host)
    || IsEmpty(rules.tenantRule) || HostListed(lib, rules.tenantRule, host)
    || Covers(lib, rules.globalRule, rules.tenantRule) || Covers(lib, rules.tenantRule, rules.globalRule)
  }

  ghost predicate CanPin(lib: Library, rules: Rules, host: string, ips: seq<Ip>) {
    exists i :: 0 <= i < |ips| && Clears(lib, rules, host, ips[i])
  }

  /** Accepted by name or, if the inner list is met, by an address the outer list holds too. */
  lemma CoveredCanPin(lib: Library, rules: Rules, host: string, ips: seq<Ip>, inner: ParsedList, outer: ParsedList)
    requires IsActive(rules) && Evaluate(lib, rules, host, ips).Allowed? && Covers(lib, inner, outer)
    requires {inner, outer} == {rules.globalRule, rules.tenantRule}
    requires !IsEmpty(inner) && !HostListed(lib, inner, host)
    ensures CanPin(lib, rules, host, ips)
  {
    var i :| 0 <= i < |ips| && AddressListed(inner, ips[i]);
    assert !lib.disallowed(ips[i]);
    assert rules.globalRule in {inner, outer} && rules.tenantRule in {inner, outer};
    AdmittedByBoth(lib, rules, host, ips, i);
  }

  /** An address of either list that is not in the other: together they are accepted, and
      neither can be pinned. */
  lemma ApartCannotPin(lib: Library, rules: Rules, host: string, a: Ip, b: Ip)
    requires IsActive(rules) && !ListsAgree(lib, rules, host) && !lib.disallowed(a) && !lib.disallowed(b)
    requires AddressListed(rules.globalRule, a) && !AddressListed(rules.tenantRule, a)
    requires AddressListed(rules.tenantRule, b) && !AddressListed(rules.globalRule, b)
    ensures Evaluate(lib, rules, host, [a, b]).Allowed? && !CanPin(lib, rules, host, [a, b])
  {
    var ips := [a, b];
    assert forall i :: 0 <= i < |ips| ==> ips[i] == a || ips[i] == b;
    assert AddressListed(rules.globalRule, ips[0]) && AddressListed(rules.tenantRule, ips[1]);
  }

  /** Whatever addresses an accepted host resolves to, one can be pinned: this holds exactly
      for the rules whose lists agree about the host. */
  lemma SelectionSucceeds(lib: Library, rules: Rules, host: string)
    requires IsActive(rules)
    ensures (forall ips :: ips != [] && Evaluate(lib, rules, host, ips).Allowed? ==> CanPin(lib, rules, host, ips))
       <==> ListsAgree(lib, rules, host)
  {
    hide Evaluate, CanPin, HostListed, AddressListed, Covers;
    if ListsAgree(lib, rules, host) {
      forall ips | ips != [] && Evaluate(lib, rules, host, ips).Allowed?
        ensures CanPin(lib, rules, host, ips)
      {
        AgreedCanPin(lib, rules, host, ips);
      }
    } else {
      var a := Outside(lib, rules.globalRule, rules.tenantRule);
      var b := Outside(lib, rules.tenantRule, rules.globalRule);
      ApartCannotPin(lib, rules, host, a, b);
    }
  }

  lemma AgreedCanPin(lib: Library, rules: Rules, host: string, ips: seq<Ip>)
    requires IsActive(rules) && ListsAgree(lib, rules, host) && ips != [] && Evaluate(lib, rules, host, ips).Allowed?
    ensures CanPin(lib, rules, host, ips)
  {
    var g, t := rules.globalRule, rules.tenantRule;
    if IsEmpty(g) || HostListed(lib, g, host) || IsEmpty(t) || HostListed(lib, t, host) {
      OneListByNameSuffices(lib, rules, host, ips);
    } else if Covers(lib, g, t) {
      CoveredCanPin(lib, rules, host, ips, g, t);
    } else {
      CoveredCanPin(lib, rules, host, ips, t, g);
    }
  }

  lemma Outside(lib: Library, inner: ParsedList, outer: ParsedList) returns (ip: Ip)
    requires !Covers(lib, inner, outer)
    ensures !lib.disallowed(ip) && AddressListed(inner, ip) && !AddressListed(outer, ip)
  {
    ip :| !lib.disallowed(ip) && AddressListed(inner, ip) && !AddressListed(outer, ip);
  }

  /** Two address lists met by different addresses: accepted, yet nothing can be pinned. */
  lemma AcceptedButNotPinned(lib: Library, a: Ip, b: Ip, host: string)
    requires a != b && !lib.disallowed(a) && !lib.disallowed(b)
    ensures var rules := Rules(true, false, ParsedList([], [Network(a.version, a.value, a.value)]),
                               ParsedList([], [Network(b.version, b.value, b.value)]), false);
            Evaluate(lib, rules, host, [a, b]).Allowed? && !Clears(lib, rules, host, a) && !Clears(lib, rules, host, b)
  {
    var ips, g, t := [a, b], ParsedList([], [Network(a.version, a.value, a.value)]), ParsedList([], [Network(b.version, b.value, b.value)]);
    assert Contains(g.networks[0], ips[0]) && AddressListed(g, ips[0]);
    assert Contains(t.networks[0], ips[1]) && AddressListed(t, ips[1]);
    assert forall i :: 0 <= i < |ips| ==> !lib.disallowed(ips[i]);
  }

  /** The global list is a ceiling: with both lists set, a connection is accepted exactly when
      either list on its own would accept it. */
  lemma CeilingIntersects(lib: Library, rules: Rules, host: string, ips: seq<Ip>)
    requires rules.enabled && !IsEmpty(rules.globalRule) && !IsEmpty(rules.tenantRule)
    ensures Evaluate(lib, rules, host, ips).Allowed?
       <==> Evaluate(lib, rules.(tenantRule := NoList, requireTenant := false), host, ips).Allowed?
            && Evaluate(lib, rules.(globalRule := NoList), host, ips).Allowed?
  {
  }
}
