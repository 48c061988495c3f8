/** The export bundle of services/server_exporter.py: the worklist over cross-tool
    references, the server slugs, and the module paths and import aliases made of them. */
module ServerExporter {
  import opened Wrappers

  datatype Ref = Ref(server: string, tool: string)

  /** A tool of a code server; no source when nothing but blanks decrypts. */
  datatype ToolDoc = ToolDoc(name: string, source: Option<string>)

  /** `references` is the sorted result of the static analysis of one source. */
  datatype Catalog = Catalog(index: map<Ref, ToolDoc>, references: string -> seq<Ref>)

  // ---- The tool index -----------------------------------------------------------------

  /** The last tool of that name; tools without a name do not count. */
  function LastNamed(tools: seq<ToolDoc>, name: string): (doc: Option<ToolDoc>)
    ensures doc.Some? ==> doc.value in tools && doc.value.name == name != ""
    ensures doc.None? ==> name == "" || forall t :: t in tools ==> t.name != name
  {
    if tools == [] then None
    else
      var last := tools[|tools| - 1];
      if last.name == name != "" then Some(last) else LastNamed(tools[..|tools| - 1], name)
  }

  /** It is there exactly if the name is not empty and some tool has it, and no later one has. */
  lemma {:induction false} LastNamedIsLast(tools: seq<ToolDoc>, name: string)
    ensures match LastNamed(tools, name)
      case Some(doc) => name != "" && exists i :: 0 <= i < |tools| && tools[i] == doc && doc.name == name
                                                  && forall j :: i < j < |tools| ==> tools[j].name != name
      case None => name == "" || forall i :: 0 <= i < |tools| ==> tools[i].name != name
  {
    if tools != [] && tools[|tools| - 1].name != name {
      LastNamedIsLast(tools[..|tools| - 1], name);
    }
  }

  ghost predicate Indexes(index: map<Ref, ToolDoc>, servers: map<string, seq<ToolDoc>>) {
    forall r: Ref ::
      && (r in index <==> r.server in servers && LastNamed(servers[r.server], r.tool).Some?)
      && (r in index ==> LastNamed(servers[r.server], r.tool) == Some(index[r]))
  }

  method IndexServer(index: map<Ref, ToolDoc>, server: string, tools: seq<ToolDoc>) returns (extended: map<Ref, ToolDoc>)
    requires forall r :: r in index ==> r.server != server
    ensures forall r: Ref :: r.server != server ==> (r in extended <==> r in index) && (r in index ==> extended[r] == index[r])
    ensures forall r: Ref :: r.server == server ==> (r in extended <==> LastNamed(tools, r.tool).Some?)
    ensures forall r: Ref :: r.server == server && r in extended ==> Some(extended[r]) == LastNamed(tools, r.tool)
  {
    extended := index;
    for i := 0 to |tools|
      invariant forall r: Ref :: r.server != server ==> (r in extended <==> r in index) && (r in index ==> extended[r] == index[r])
      invariant forall r: Ref :: r.server == server ==> (r in extended <==> LastNamed(tools[..i], r.tool).Some?)
      invariant forall r: Ref :: r.server == server && r in extended ==> Some(extended[r]) == LastNamed(tools[..i], r.tool)
    {
      assert tools[..i + 1][..i] == tools[..i];
      if tools[i].name != "" {
        extended := extended[Ref(server, tools[i].name) := tools[i]];
      }
    }
    assert tools[..|tools|] == tools;
  }

  method ToolIndex(servers: map<string, seq<ToolDoc>>) returns (index: map<Ref, ToolDoc>)
    ensures Indexes(index, servers)
  {
    index := map[];
    var left := servers.Keys;
    while left != {}
      invariant left <= servers.Keys
      invariant forall r :: r in index ==> r.server !in left
      invariant forall r: Ref :: r.server !in left ==>
        (r in index <==> r.server in servers && LastNamed(servers[r.server], r.tool).Some?)
      invariant forall r :: r in index ==> r.server in servers && LastNamed(servers[r.server], r.tool) == Some(index[r])
      decreases |left|
    {
      var server :| server in left;
      index := IndexServer(index, server, servers[server]);
      left := left - {server};
    }
  }

  // ---- The closure --------------------------------------------------------------------

  predicate Buildable(c: Catalog, r: Ref) {
    r in c.index && c.index[r].source.Some?
  }

  function References(c: Catalog, r: Ref): seq<Ref>
    requires Buildable(c, r)
  {
    c.references(c.index[r].source.value)
  }

  /** A chain of references: every tool but the last is buildable and refers to the next. */
  ghost predicate Chain(c: Catalog, roots: seq<Ref>, path: seq<Ref>) {
    && |path| > 0
    && path[0] in roots
    && forall i :: 0 <= i < |path| - 1 ==> Buildable(c, path[i]) && path[i + 1] in References(c, path[i])
  }

  ghost predicate Reachable(c: Catalog, roots: seq<Ref>, r: Ref) {
    exists path :: Chain(c, roots, path) && path[|path| - 1] == r
  }

  lemma RootReachable(c: Catalog, roots: seq<Ref>, r: Ref)
    requires r in roots
    ensures Reachable(c, roots, r)
  {
    assert Chain(c, roots, [r]);
  }

  lemma ReferenceReachable(c: Catalog, roots: seq<Ref>, r: Ref, next: Ref)
    requires Reachable(c, roots, r) && Buildable(c, r) && next in References(c, r)
    ensures Reachable(c, roots, next)
  {
    var path :| Chain(c, roots, path) && path[|path| - 1] == r;
    assert Chain(c, roots, path + [next]);
  }

  /** Every root and every reference of a built tool is built, missing or queued. */
  ghost predicate Covered(c: Catalog, roots: seq<Ref>, built: set<Ref>, seen: set<Ref>) {
    && (forall r :: r in roots ==> r in seen)
    && (forall r, next :: r in built && Buildable(c, r) && next in References(c, r) ==> next in seen)
  }

  function Seen(built: set<Ref>, missing: set<Ref>, queue: seq<Ref>): set<Ref> {
    built + missing + set r | r in queue
  }

  lemma {:induction false} ChainCovered(c: Catalog, roots: seq<Ref>, built: set<Ref>, missing: set<Ref>, path: seq<Ref>)
    requires Chain(c, roots, path)
    requires Covered(c, roots, built, built + missing)
    requires forall r :: r in missing ==> !Buildable(c, r)
    ensures path[|path| - 1] in built + missing
    decreases |path|
  {
    if |path| > 1 {
      var shorter := path[..|path| - 1];
      ChainCovered(c, roots, built, missing, shorter);
      var r := shorter[|shorter| - 1];
      assert Buildable(c, r) && path[|path| - 1] in References(c, r);
    }
  }

  ghost predicate Sound(c: Catalog, roots: seq<Ref>, built: map<Ref, string>, missing: set<Ref>) {
    && (forall r :: r in built ==> Reachable(c, roots, r) && Buildable(c, r) && built[r] == c.index[r].source.value)
    && (forall r :: r in missing ==> Reachable(c, roots, r) && !Buildable(c, r))
  }

  ghost predicate AllReachable(c: Catalog, roots: seq<Ref>, queue: seq<Ref>) {
    forall r :: r in queue ==> Reachable(c, roots, r)
  }

  lemma RootsReachable(c: Catalog, roots: seq<Ref>)
    ensures AllReachable(c, roots, roots)
  {
    forall r | r in roots
      ensures Reachable(c, roots, r)
    {
      RootReachable(c, roots, r);
    }
  }

  lemma QueueSplit(c: Catalog, roots: seq<Ref>, queue: seq<Ref>)
    requires queue != [] && AllReachable(c, roots, queue)
    ensures Reachable(c, roots, queue[0]) && AllReachable(c, roots, queue[1..])
  {
  }

  lemma NothingBuilt(c: Catalog, roots: seq<Ref>)
    ensures Covered(c, roots, {}, Seen({}, {}, roots))
  {
  }

  lemma HeadDropped(c: Catalog, roots: seq<Ref>, built: set<Ref>, missing: set<Ref>, queue: seq<Ref>, missingNow: set<Ref>)
    requires queue != [] && Covered(c, roots, built, Seen(built, missing, queue))
    requires queue[0] in built + missingNow && missing <= missingNow <= missing + {queue[0]}
    ensures Covered(c, roots, built, Seen(built, missingNow, queue[1..]))
  {
    assert queue == [queue[0]] + queue[1..];
    assert Seen(built, missing, queue) <= Seen(built, missingNow, queue[1..]);
  }

  lemma HeadBuilt(c: Catalog, roots: seq<Ref>, built: set<Ref>, missing: set<Ref>, queue: seq<Ref>, extended: seq<Ref>)
    requires queue != [] && Covered(c, roots, built, Seen(built, missing, queue))
    requires forall r :: r in queue[1..] ==> r in extended
    requires Buildable(c, queue[0]) && forall r :: r in References(c, queue[0]) ==> r in built + {queue[0]} || r in extended
    ensures Covered(c, roots, built + {queue[0]}, Seen(built + {queue[0]}, missing, extended))
  {
    assert queue == [queue[0]] + queue[1..];
    assert Seen(built, missing, queue) <= Seen(built + {queue[0]}, missing, extended);
  }

  lemma ClosureComplete(c: Catalog, roots: seq<Ref>, built: map<Ref, string>, missing: set<Ref>)
    requires Sound(c, roots, built, missing) && Covered(c, roots, built.Keys, Seen(built.Keys, missing, []))
    ensures IsClosure(c, roots, built, missing)
  {
    assert Seen(built.Keys, missing, []) == built.Keys + missing;
    forall r: Ref | Reachable(c, roots, r)
      ensures r in built.Keys + missing
    {
      var path :| Chain(c, roots, path) && path[|path| - 1] == r;
      ChainCovered(c, roots, built.Keys, missing, path);
    }
  }

  /** What is built is exactly what is reachable and has source; what is missing, what is
      reachable without. */
  ghost predicate IsClosure(c: Catalog, roots: seq<Ref>, built: map<Ref, string>, missing: set<Ref>) {
    && (forall r: Ref :: r in built <==> Reachable(c, roots, r) && Buildable(c, r))
    && (forall r: Ref :: r in missing <==> Reachable(c, roots, r) && !Buildable(c, r))
    && (forall r :: r in built ==> r in c.index && c.index[r].source == Some(built[r]))
  }

  /** The worklist: a key may be queued several times and is handled once. */
  method ResolveClosure(c: Catalog, roots: seq<Ref>) returns (built: map<Ref, string>, missing: set<Ref>)
    ensures IsClosure(c, roots, built, missing)
  {
    hide Covered, AllReachable, Reachable, Seen;
    built, missing := map[], {};
    var queue := roots;
    RootsReachable(c, roots);
    NothingBuilt(c, roots);
    assert built.Keys == {};
    while queue != []
      invariant Sound(c, roots, built, missing) && AllReachable(c, roots, queue)
      invariant Covered(c, roots, built.Keys, Seen(built.Keys, missing, queue))
      decreases c.index.Keys - built.Keys, |queue|
    {
      var key, rest := queue[0], queue[1..];
      QueueSplit(c, roots, queue);
      if key in built || key in missing {
        HeadDropped(c, roots, built.Keys, missing, queue, missing);
        queue := rest;
      } else if key !in c.index || c.index[key].source.None? {
        HeadDropped(c, roots, built.Keys, missing, queue, missing + {key});
        queue, missing := rest, missing + {key};
      } else {
        var extended := Enqueue(c, roots, key, built.Keys + {key}, rest);
        HeadBuilt(c, roots, built.Keys, missing, queue, extended);
        assert key in c.index.Keys - built.Keys;
        assert (built[key := c.index[key].source.value]).Keys == built.Keys + {key};
        queue, built := extended, built[key := c.index[key].source.value];
      }
    }
    ClosureComplete(c, roots, built, missing);
  }

  /** The references of a tool just built, except those built already, join the queue. */
  method Enqueue(c: Catalog, ghost roots: seq<Ref>, key: Ref, built: set<Ref>, queue: seq<Ref>) returns (extended: seq<Ref>)
    requires Buildable(c, key) && Reachable(c, roots, key) && AllReachable(c, roots, queue)
    ensures forall r :: r in queue ==> r in extended
    ensures forall r :: r in References(c, key) ==> r in built || r in extended
    ensures AllReachable(c, roots, extended)
  {
    hide Reachable;
    extended := queue;
    var refs := c.references(c.index[key].source.value);
    for i := 0 to |refs|
      invariant forall r :: r in queue ==> r in extended
      invariant forall j :: 0 <= j < i ==> refs[j] in built || refs[j] in extended
      invariant AllReachable(c, roots, extended)
    {
      if refs[i] !in built {
        ReferenceReachable(c, roots, key, refs[i]);
        extended := extended + [refs[i]];
      }
    }
  }

  // ---- One export ---------------------------------------------------------------------

  datatype Outcome =
    | NotFound
    | NotCodeServer
    | NothingToExport
    | Exported(built: map<Ref, string>, missing: set<Ref>)

  function NamedTools(server: string, tools: seq<ToolDoc>): (roots: seq<Ref>)
    ensures forall r: Ref :: r in roots <==> r.server == server && LastNamed(tools, r.tool).Some?
  {
    if tools == [] then []
    else
      var last := tools[|tools| - 1];
      NamedTools(server, tools[..|tools| - 1]) + if last.name == "" then [] else [Ref(server, last.name)]
  }

  predicate Exportable(servers: map<string, seq<ToolDoc>>, r: Ref) {
    && r.server in servers
    && LastNamed(servers[r.server], r.tool).Some?
    && LastNamed(servers[r.server], r.tool).value.source.Some?
  }

  /** What is bundled has source, what is reported missing has not, and every reference of
      a bundled tool is one or the other. */
  ghost predicate Closed(servers: map<string, seq<ToolDoc>>, references: string -> seq<Ref>, built: map<Ref, string>, missing: set<Ref>) {
    && (forall r :: r in built ==> Exportable(servers, r))
    && (forall r :: r in missing ==> !Exportable(servers, r))
    && (forall r, next :: r in built && next in references(built[r]) ==> next in built.Keys + missing)
  }

  /** The bundle is the closure of the server's own tools over the index of all servers. */
  ghost predicate IsExport(servers: map<string, seq<ToolDoc>>, references: string -> seq<Ref>, server: string,
                           built: map<Ref, string>, missing: set<Ref>)
    requires server in servers
  {
    exists index :: Indexes(index, servers)
                    && IsClosure(Catalog(index, references), NamedTools(server, servers[server]), built, missing)
  }

  /** `registered` holds the servers of every transport, `servers` those of code. */
  method BuildServerExport(servers: map<string, seq<ToolDoc>>, registered: set<string>, references: string -> seq<Ref>, server: string)
    returns (outcome: Outcome)
    ensures outcome.NotFound? <==> server !in servers && server !in registered
    ensures outcome.NotCodeServer? <==> server !in servers && server in registered
    ensures outcome.NothingToExport? <==> server in servers && forall name :: !Exportable(servers, Ref(server, name))
    ensures outcome.Exported? ==> forall name :: Ref(server, name) in outcome.built <==> Exportable(servers, Ref(server, name))
    ensures outcome.Exported? ==> IsExport(servers, references, server, outcome.built, outcome.missing)
    ensures outcome.Exported? ==> Closed(servers, references, outcome.built, outcome.missing)
  {
    hide IsClosure, Exportable, Indexes, NamedTools, Closed;
    if server !in servers {
      return if server in registered then NotCodeServer else NotFound;
    }
    var index := ToolIndex(servers);
    var c := Catalog(index, references);
    var roots := NamedTools(server, servers[server]);
    var built, missing := ResolveClosure(c, roots);
    PrimaryExact(c, servers, server, built, missing);
    var primary := set r | r in built && r.server == server;
    assert forall name :: Ref(server, name) in built ==> Ref(server, name) in primary;
    assert forall r :: r in primary ==> r == Ref(server, r.tool);
    if primary == {} {
      return NothingToExport;
    }
    ClosureIsClosed(c, servers, roots, built, missing);
    outcome := Exported(built, missing);
  }

  lemma IndexBuildable(c: Catalog, servers: map<string, seq<ToolDoc>>, r: Ref)
    requires Indexes(c.index, servers)
    ensures Buildable(c, r) <==> Exportable(servers, r)
  {
  }

  lemma ClosureIsClosed(c: Catalog, servers: map<string, seq<ToolDoc>>, roots: seq<Ref>, built: map<Ref, string>, missing: set<Ref>)
    requires Indexes(c.index, servers)
    requires IsClosure(c, roots, built, missing)
    ensures Closed(servers, c.references, built, missing)
  {
    hide Reachable, Exportable, Indexes;
    forall r
      ensures Buildable(c, r) <==> Exportable(servers, r)
    {
      IndexBuildable(c, servers, r);
    }
    forall r, next | r in built && next in c.references(built[r])
      ensures next in built.Keys + missing
    {
      ReferenceReachable(c, roots, r, next);
    }
  }

  /** References from elsewhere add nothing to the exported server itself. */
  lemma PrimaryExact(c: Catalog, servers: map<string, seq<ToolDoc>>, server: string, built: map<Ref, string>, missing: set<Ref>)
    requires Indexes(c.index, servers) && server in servers
    requires IsClosure(c, NamedTools(server, servers[server]), built, missing)
    ensures forall name :: Ref(server, name) in built <==> Exportable(servers, Ref(server, name))
  {
    hide Reachable, LastNamed;
    forall r
      ensures Buildable(c, r) <==> Exportable(servers, r)
    {
      IndexBuildable(c, servers, r);
    }
    forall name | Exportable(servers, Ref(server, name))
      ensures Ref(server, name) in built
    {
      RootReachable(c, NamedTools(server, servers[server]), Ref(server, name));
    }
  }
}
