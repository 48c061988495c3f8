/** The names of an export bundle, services/server_exporter.py: one slug per server, the
    module file and the import alias of each tool. ASCII names only. */
module ExportNaming {
  import opened Wrappers

  // ---- Slugs ----------------------------------------------------------------------------

  predicate IsDigit(ch: char) {
    '0' <= ch <= '9'
  }

  predicate IsUpper(ch: char) {
    'A' <= ch <= 'Z'
  }

  predicate IsLower(ch: char) {
    'a' <= ch <= 'z'
  }

  function CleanChar(ch: char): char {
    if IsDigit(ch) || IsUpper(ch) || IsLower(ch) then ch else '_'
  }

  function LowerChar(ch: char): char {
    if IsUpper(ch) then ch - 'A' + 'a' else ch
  }

  function Map(s: string, f: char -> char): (mapped: string)
    ensures |mapped| == |s| && forall i :: 0 <= i < |s| ==> mapped[i] == f(s[i])
  {
    seq(|s|, i requires 0 <= i < |s| => f(s[i]))
  }

  function StripUnderscores(s: string): (stripped: string)
    ensures forall ch :: ch in stripped ==> ch in s
    ensures stripped != "" ==> stripped[0] != '_' && stripped[|stripped| - 1] != '_'
    decreases |s|
  {
    if s == "" then ""
    else if s[0] == '_' then StripUnderscores(s[1..])
    else if s[|s| - 1] == '_' then StripUnderscores(s[..|s| - 1])
    else s
  }

  function Slug(name: string): string {
    var stripped := StripUnderscores(Map(name, CleanChar));
    var cleaned := if stripped == "" then "tool" else stripped;
    Map(if IsDigit(cleaned[0]) then "s_" + cleaned else cleaned, LowerChar)
  }

  lemma {:induction false} StripsOuter(s: string, i: nat, j: nat)
    requires i <= j < |s| && s[i] != '_' && s[j] != '_'
    requires forall k :: 0 <= k < i || j < k < |s| ==> s[k] == '_'
    ensures StripUnderscores(s) == s[i..j + 1]
    decreases |s|
  {
    if i > 0 {
      StripsOuter(s[1..], i - 1, j - 1);
      assert s[1..][i - 1..j] == s[i..j + 1];
    } else if j < |s| - 1 {
      StripsOuter(s[..|s| - 1], i, j);
      assert s[..|s| - 1][i..j + 1] == s[i..j + 1];
    } else {
      assert s[0..|s|] == s;
    }
  }

  lemma {:induction false} StripsAll(s: string)
    requires forall k :: 0 <= k < |s| ==> s[k] == '_'
    ensures StripUnderscores(s) == ""
    decreases |s|
  {
    if s != "" {
      StripsAll(s[1..]);
    }
  }

  /** An ASCII letter or digit. */
  predicate IsAlnum(ch: char) {
    '0' <= ch <= '9' || 'A' <= ch <= 'Z' || 'a' <= ch <= 'z'
  }

  lemma CharMeaning(ch: char)
    ensures CleanChar(ch) == '_' <==> !IsAlnum(ch)
    ensures IsDigit(CleanChar(ch)) <==> '0' <= ch <= '9'
    ensures LowerChar(CleanChar(ch)) == if 'A' <= ch <= 'Z' then (ch as int + 32) as char else if IsAlnum(ch) then ch else '_'
  {
  }

  lemma CoreSlug(name: string, core: string)
    requires StripUnderscores(Map(name, CleanChar)) == core != ""
    ensures Slug(name) == Map((if IsDigit(core[0]) then "s_" else "") + core, LowerChar)
  {
    hide StripUnderscores, Map;
    assert "" + core == core;
  }

  lemma StrippedCore(name: string, i: nat, j: nat)
    requires i <= j < |name| && IsAlnum(name[i]) && IsAlnum(name[j])
    requires forall k :: 0 <= k < i || j < k < |name| ==> !IsAlnum(name[k])
    ensures StripUnderscores(Map(name, CleanChar)) == Map(name[i..j + 1], CleanChar)
  {
    hide CleanChar, IsAlnum, StripUnderscores;
    var mapped := Map(name, CleanChar);
    forall k | 0 <= k < |name|
      ensures mapped[k] == '_' <==> !IsAlnum(name[k])
    {
      CharMeaning(name[k]);
    }
    StripsOuter(mapped, i, j);
    assert mapped[i..j + 1] == Map(name[i..j + 1], CleanChar);
  }

  lemma Lowered(start: string, core: string)
    requires start == "s_" || start == ""
    ensures var all := Map(start + Map(core, CleanChar), LowerChar);
            |all| == |start| + |core| && start <= all
            && forall n :: 0 <= n < |core| ==> all[|start|..][n] == LowerChar(CleanChar(core[n]))
  {
  }

  /** The slug of a name whose first letter or digit is at i and whose last is at j: what is
      between, capitals made small and everything else an underscore, with `s_` before a digit. */
  lemma SlugExactly(name: string, i: nat, j: nat)
    requires i <= j < |name| && IsAlnum(name[i]) && IsAlnum(name[j])
    requires forall k :: 0 <= k < i || j < k < |name| ==> !IsAlnum(name[k])
    ensures var core, start := name[i..j + 1], if '0' <= name[i] <= '9' then "s_" else "";
            start <= Slug(name)
            && var tail := Slug(name)[|start|..];
               |tail| == |core|
               && forall n :: 0 <= n < |core| ==>
                    tail[n] == if 'A' <= core[n] <= 'Z' then (core[n] as int + 32) as char else if IsAlnum(core[n]) then core[n] else '_'
  {
    hide Slug, CleanChar, LowerChar, IsAlnum, StripUnderscores, IsDigit, Map;
    var core := name[i..j + 1];
    StrippedCore(name, i, j);
    CharMeaning(name[i]);
    CoreSlug(name, Map(core, CleanChar));
    Lowered(if '0' <= name[i] <= '9' then "s_" else "", core);
    forall n | 0 <= n < |core|
      ensures LowerChar(CleanChar(core[n]))
           == if 'A' <= core[n] <= 'Z' then (core[n] as int + 32) as char else if IsAlnum(core[n]) then core[n] else '_'
    {
      CharMeaning(core[n]);
    }
  }

  /** A name without letter or digit gets the slug `tool`. */
  lemma SlugOfNothing(name: string)
    requires forall k :: 0 <= k < |name| ==> !IsAlnum(name[k])
    ensures Slug(name) == "tool"
  {
    StripsAll(Map(name, CleanChar));
    hide StripUnderscores;
  }

  predicate IsWordChar(ch: char) {
    IsDigit(ch) || IsLower(ch) || ch == '_'
  }

  /** A lower-case module name: starts with a letter, does not end in an underscore. */
  ghost predicate IsModuleName(s: string) {
    && s != ""
    && IsLower(s[0])
    && s[|s| - 1] != '_'
    && forall i :: 0 <= i < |s| ==> IsWordChar(s[i])
  }

  lemma SlugIsModuleName(name: string)
    ensures IsModuleName(Slug(name))
  {
    var stripped := StripUnderscores(Map(name, CleanChar));
    StrippedIsClean(name);
    var cleaned := if stripped == "" then "tool" else stripped;
    var start := if IsDigit(cleaned[0]) then "s_" + cleaned else cleaned;
    assert start[|start| - 1] == cleaned[|cleaned| - 1];
    hide StripUnderscores;
    assert IsClean(start);
    LoweredIsModuleName(start);
  }

  ghost predicate IsClean(s: string) {
    forall i :: 0 <= i < |s| ==> CleanChar(s[i]) == s[i]
  }

  lemma StrippedIsClean(name: string)
    ensures IsClean(StripUnderscores(Map(name, CleanChar)))
  {
    var mapped := Map(name, CleanChar);
    var stripped := StripUnderscores(mapped);
    hide StripUnderscores;
    assert forall i :: 0 <= i < |stripped| ==> stripped[i] in mapped;
  }

  lemma LoweredIsModuleName(s: string)
    requires s != "" && IsClean(s) && s[0] != '_' && !IsDigit(s[0]) && s[|s| - 1] != '_'
    ensures IsModuleName(Map(s, LowerChar))
  {
    assert CleanChar(s[0]) == s[0] && CleanChar(s[|s| - 1]) == s[|s| - 1];
  }

  // ---- Distinct server slugs --------------------------------------------------------------

  function Decimal(n: nat): (digits: string)
    ensures digits != "" && forall ch :: ch in digits ==> IsDigit(ch)
  {
    if n < 10 then [(n as char) + '0'] else Decimal(n / 10) + [(n % 10) as char + '0']
  }

  function Value(digits: string): nat
    requires forall ch :: ch in digits ==> IsDigit(ch)
  {
    if digits == "" then 0
    else
      assert digits[|digits| - 1] in digits && IsDigit(digits[|digits| - 1]);
      Value(digits[..|digits| - 1]) * 10 + (digits[|digits| - 1] - '0') as nat
  }

  lemma {:induction false} DecimalRoundTrip(n: nat)
    ensures Value(Decimal(n)) == n
  {
    if n >= 10 {
      DecimalRoundTrip(n / 10);
      assert Decimal(n)[..|Decimal(n)| - 1] == Decimal(n / 10);
    } else {
      assert Decimal(n)[..0] == "";
    }
  }

  /** The k-th name tried for a server: the slug itself, then slug_2, slug_3, ... */
  function Candidate(slug: string, k: nat): string {
    if k <= 1 then slug else slug + "_" + Decimal(k)
  }

  lemma {:induction false} NoLeadingZero(n: nat)
    requires n > 0
    ensures Decimal(n)[0] != '0'
  {
    if n >= 10 {
      NoLeadingZero(n / 10);
    }
  }

  /** From the second on, the names tried are numbered in decimal, beginning with 2. */
  lemma CandidateNumbers(slug: string, k: nat)
    ensures Candidate(slug, 1) == slug && Candidate(slug, 2) == slug + "_2"
    ensures k >= 2 ==> exists digits: string ::
      && Candidate(slug, k) == slug + "_" + digits && digits != "" && digits[0] != '0'
      && (forall ch :: ch in digits ==> IsDigit(ch)) && Value(digits) == k
  {
    if k >= 2 {
      NoLeadingZero(k);
      DecimalRoundTrip(k);
      assert Candidate(slug, k) == slug + "_" + Decimal(k);
    }
  }

  lemma CandidatesDistinct(slug: string, j: nat, k: nat)
    requires 1 <= j < k
    ensures Candidate(slug, j) != Candidate(slug, k)
  {
    DecimalRoundTrip(j);
    DecimalRoundTrip(k);
    var prefix := slug + "_";
    assert Candidate(slug, k)[|prefix|..] == Decimal(k);
    if j > 1 {
      assert Candidate(slug, j)[|prefix|..] == Decimal(j);
    }
  }

  /** The first name of that server which no server before it has taken. */
  ghost predicate IsFirstFree(slug: string, used: set<string>, candidate: string) {
    exists k: nat :: k >= 1 && candidate == Candidate(slug, k) && candidate !in used && AllTaken(slug, used, k)
  }

  ghost predicate AllTaken(slug: string, used: set<string>, k: nat) {
    forall j :: 1 <= j < k ==> Candidate(slug, j) in used
  }

  /** Ends because the names tried differ: at most all used ones can be in the way. */
  method FreeSlug(owner: string, used: set<string>) returns (candidate: string)
    ensures IsFirstFree(Slug(owner), used, candidate)
  {
    var slug := Slug(owner);
    candidate := slug;
    var suffix := 2;
    ghost var tried: set<string> := {};
    while candidate in used
      invariant suffix >= 2 && candidate == Candidate(slug, suffix - 1)
      invariant AllTaken(slug, used, suffix - 1)
      invariant tried <= used
      invariant forall c :: c in tried <==> exists j :: 1 <= j < suffix - 1 && c == Candidate(slug, j)
      decreases used - tried
    {
      forall j | 1 <= j < suffix - 1
        ensures Candidate(slug, j) != candidate
      {
        CandidatesDistinct(slug, j, suffix - 1);
      }
      assert candidate in used - tried;
      tried := tried + {candidate};
      candidate := slug + "_" + Decimal(suffix);
      suffix := suffix + 1;
    }
  }

  function Names(slugs: seq<string>): set<string> {
    set s | s in slugs
  }

  /** Each slug is the first name of its server free after the slugs before it. */
  ghost predicate FirstFreeSlugs(owners: seq<string>, slugs: seq<string>) {
    && |slugs| <= |owners|
    && forall i :: 0 <= i < |slugs| ==> IsFirstFree(Slug(owners[i]), Names(slugs[..i]), slugs[i])
  }

  lemma NoSlugsYet(owners: seq<string>)
    ensures FirstFreeSlugs(owners, [])
  {
  }

  lemma SlugAppended(owners: seq<string>, slugs: seq<string>, candidate: string)
    requires FirstFreeSlugs(owners, slugs) && |slugs| < |owners|
    requires IsFirstFree(Slug(owners[|slugs|]), Names(slugs), candidate)
    ensures FirstFreeSlugs(owners, slugs + [candidate])
  {
    hide IsFirstFree, Slug, Names;
    var extended := slugs + [candidate];
    forall i | 0 <= i < |extended|
      ensures IsFirstFree(Slug(owners[i]), Names(extended[..i]), extended[i])
    {
      assert extended[..i] == slugs[..i];
      assert slugs[..|slugs|] == slugs;
    }
  }

  lemma SlugsDistinct(owners: seq<string>, slugs: seq<string>)
    requires FirstFreeSlugs(owners, slugs)
    ensures forall i, j :: 0 <= i < j < |slugs| ==> slugs[i] != slugs[j]
  {
    forall i, j | 0 <= i < j < |slugs|
      ensures slugs[i] != slugs[j]
    {
      assert slugs[..j][i] == slugs[i] && slugs[..j][i] in Names(slugs[..j]);
    }
  }

  method AssignSlugs(owners: seq<string>) returns (slugs: seq<string>)
    ensures |slugs| == |owners| && FirstFreeSlugs(owners, slugs)
    ensures forall i, j :: 0 <= i < j < |slugs| ==> slugs[i] != slugs[j]
  {
    hide IsFirstFree, Slug, FirstFreeSlugs;
    slugs := [];
    NoSlugsYet(owners);
    var used: set<string> := {};
    for n := 0 to |owners|
      invariant |slugs| == n && used == Names(slugs)
      invariant FirstFreeSlugs(owners, slugs)
    {
      var candidate := FreeSlug(owners[n], used);
      SlugAppended(owners, slugs, candidate);
      used := used + {candidate};
      slugs := slugs + [candidate];
    }
    SlugsDistinct(owners, slugs);
  }

  lemma SlugsAreModuleNames(owner: string, used: set<string>, candidate: string)
    requires IsFirstFree(Slug(owner), used, candidate)
    ensures IsModuleName(candidate)
  {
    SlugIsModuleName(owner);
    var k: nat :| k >= 1 && candidate == Candidate(Slug(owner), k) && candidate !in used && AllTaken(Slug(owner), used, k);
    if k > 1 {
      var digits := Decimal(k);
      assert candidate == Slug(owner) + "_" + digits;
      assert forall i :: 0 <= i < |digits| ==> digits[i] in digits;
    }
  }

  // ---- Module files -----------------------------------------------------------------------

  datatype BundledTool = BundledTool(server: string, slug: string, tool: string)

  datatype File = PackageInit | Module(of: BundledTool)

  ghost predicate WellSlugged(tools: seq<BundledTool>) {
    && (forall t :: t in tools ==> IsModuleName(t.slug))
    && (forall t, u :: t in tools && u in tools && t.slug == u.slug ==> t.server == u.server)
  }

  function PackageDir(slug: string): string {
    "tools/" + slug + "/"
  }

  function ModulePath(slug: string, tool: string): string {
    PackageDir(slug) + Slug(tool) + ".py"
  }

  function InitPath(slug: string): string {
    PackageDir(slug) + "__init__.py"
  }

  lemma FirstSlash(a: string, b: string, x: string, y: string)
    requires '/' !in a && '/' !in b && a + "/" + x == b + "/" + y
    ensures a == b && x == y
  {
    var left, right := a + "/" + x, b + "/" + y;
    assert left[|a|] == '/' && right[|b|] == '/';
    assert forall i :: 0 <= i < |a| ==> left[i] == a[i] && a[i] in a;
    assert forall i :: 0 <= i < |b| ==> right[i] == b[i] && b[i] in b;
    assert |a| == |b|;
    assert a == left[..|a|] && b == right[..|b|];
    assert x == left[|a| + 1..] && y == right[|b| + 1..];
  }

  lemma PathsDiffer(a: string, b: string, x: string, y: string)
    requires '/' !in a && '/' !in b && PackageDir(a) + x == PackageDir(b) + y
    ensures a == b && x == y
  {
    var left, right := a + "/" + x, b + "/" + y;
    assert PackageDir(a) + x == "tools/" + left && PackageDir(b) + y == "tools/" + right;
    assert left == ("tools/" + left)[6..] && right == ("tools/" + right)[6..];
    FirstSlash(a, b, x, y);
  }

  lemma ModuleNameHasNoSlash(s: string)
    requires IsModuleName(s)
    ensures '/' !in s
  {
  }

  lemma ModulePathsDiffer(a: string, b: string, x: string, y: string)
    requires IsModuleName(a) && IsModuleName(b)
    ensures ModulePath(a, x) == ModulePath(b, y) <==> a == b && Slug(x) == Slug(y)
    ensures ModulePath(a, x) != InitPath(b)
  {
    ModuleNameHasNoSlash(a);
    ModuleNameHasNoSlash(b);
    SlugIsModuleName(x);
    var left, right := Slug(x) + ".py", Slug(y) + ".py";
    assert ModulePath(a, x) == PackageDir(a) + left && ModulePath(b, y) == PackageDir(b) + right;
    assert left[0] == Slug(x)[0];
    if ModulePath(a, x) == ModulePath(b, y) {
      PathsDiffer(a, b, left, right);
      assert Slug(x) == left[..|left| - 3] && Slug(y) == right[..|right| - 3];
    }
    if ModulePath(a, x) == InitPath(b) {
      PathsDiffer(a, b, left, "__init__.py");
    }
  }

  /** Two tools of one server must not share a slug, or one file replaces the other. */
  ghost predicate ToolSlugsDistinct(tools: seq<BundledTool>) {
    forall t, u :: t in tools && u in tools && t.server == u.server && t.tool != u.tool ==> Slug(t.tool) != Slug(u.tool)
  }

  ghost predicate Keeps(files: map<string, File>, tools: seq<BundledTool>) {
    forall t :: t in tools ==> ModulePath(t.slug, t.tool) in files && files[ModulePath(t.slug, t.tool)] == Module(t)
  }

  /** Every tool of the bundle keeps its own module exactly if no server has two tools with
      one slug; otherwise the later of the two replaces the earlier without notice. */
  method RenderModules(tools: seq<BundledTool>) returns (files: map<string, File>)
    requires WellSlugged(tools)
    requires forall t, u :: t in tools && u in tools && t.server == u.server ==> t.slug == u.slug
    ensures forall t :: t in tools ==> InitPath(t.slug) in files && files[InitPath(t.slug)] == PackageInit
    ensures forall i :: 0 <= i < |tools| ==> LastAt(files, tools, i, |tools|)
    ensures Keeps(files, tools) <==> ToolSlugsDistinct(tools)
  {
    hide Slug, ModulePath, InitPath, IsModuleName;
    files := map[];
    for n := 0 to |tools|
      invariant forall i :: 0 <= i < n ==> InitPath(tools[i].slug) in files && files[InitPath(tools[i].slug)] == PackageInit
      invariant forall i :: 0 <= i < n ==> LastAt(files, tools, i, n)
    {
      var t := tools[n];
      forall i | 0 <= i < n
        ensures ModulePath(tools[i].slug, tools[i].tool) != InitPath(t.slug)
        ensures ModulePath(t.slug, t.tool) != InitPath(tools[i].slug)
        ensures ModulePath(t.slug, t.tool) != InitPath(t.slug)
      {
        ModulePathsDiffer(tools[i].slug, t.slug, tools[i].tool, t.tool);
        ModulePathsDiffer(t.slug, tools[i].slug, t.tool, t.tool);
        ModulePathsDiffer(t.slug, t.slug, t.tool, t.tool);
      }
      ModulePathsDiffer(t.slug, t.slug, t.tool, t.tool);
      var extended := files[InitPath(t.slug) := PackageInit][ModulePath(t.slug, t.tool) := Module(t)];
      var m := n + 1;
      forall i | 0 <= i < n
        ensures LastAt(extended, tools, i, m)
      {
        LastAtExtends(files, extended, tools, i, n);
      }
      assert LastAt(extended, tools, n, n + 1);
      files := extended;
    }
    KeptIffDistinct(files, tools);
  }

  /** The file of the i-th tool is its own, or that of a later tool with the same path. */
  ghost predicate LastAt(files: map<string, File>, tools: seq<BundledTool>, i: nat, n: nat)
    requires i < n <= |tools|
  {
    var path := ModulePath(tools[i].slug, tools[i].tool);
    && path in files
    && exists j :: i <= j < n && files[path] == Module(tools[j]) && ModulePath(tools[j].slug, tools[j].tool) == path
  }

  lemma LastAtExtends(files: map<string, File>, extended: map<string, File>, tools: seq<BundledTool>, i: nat, n: nat)
    requires i < n < |tools| && LastAt(files, tools, i, n)
    requires extended == files[InitPath(tools[n].slug) := PackageInit][ModulePath(tools[n].slug, tools[n].tool) := Module(tools[n])]
    requires ModulePath(tools[i].slug, tools[i].tool) != InitPath(tools[n].slug)
    ensures LastAt(extended, tools, i, n + 1)
  {
    hide ModulePath, InitPath;
    var path := ModulePath(tools[i].slug, tools[i].tool);
    var j :| i <= j < n && files[path] == Module(tools[j]) && ModulePath(tools[j].slug, tools[j].tool) == path;
    var last := if path == ModulePath(tools[n].slug, tools[n].tool) then n else j;
    assert extended[path] == Module(tools[last]) && ModulePath(tools[last].slug, tools[last].tool) == path;
  }

  lemma KeptIffDistinct(files: map<string, File>, tools: seq<BundledTool>)
    requires WellSlugged(tools)
    requires forall t, u :: t in tools && u in tools && t.server == u.server ==> t.slug == u.slug
    requires forall i :: 0 <= i < |tools| ==> LastAt(files, tools, i, |tools|)
    ensures Keeps(files, tools) <==> ToolSlugsDistinct(tools)
  {
    hide Slug, ModulePath, IsModuleName;
    forall t, u | t in tools && u in tools
      ensures ModulePath(t.slug, t.tool) == ModulePath(u.slug, u.tool) <==> t.slug == u.slug && Slug(t.tool) == Slug(u.tool)
    {
      ModulePathsDiffer(t.slug, u.slug, t.tool, u.tool);
    }
    if ToolSlugsDistinct(tools) {
      forall t | t in tools
        ensures ModulePath(t.slug, t.tool) in files && files[ModulePath(t.slug, t.tool)] == Module(t)
      {
        var i :| 0 <= i < |tools| && tools[i] == t;
        assert LastAt(files, tools, i, |tools|);
      }
    }
  }

  /** A function name that neither starts nor ends with an underscore. */
  ghost predicate IsPlainIdentifier(name: string) {
    && name != "" && IsClean(name)
    && name[0] != '_' && !IsDigit(name[0]) && name[|name| - 1] != '_'
  }

  lemma PlainSlug(name: string)
    requires IsPlainIdentifier(name)
    ensures Slug(name) == Map(name, LowerChar)
  {
    assert Map(name, CleanChar) == name;
    assert StripUnderscores(name) == name;
  }

  /** Two such tools of one server share a module file exactly if they differ in case only. */
  lemma PlainSlugsCollide(x: string, y: string)
    requires IsPlainIdentifier(x) && IsPlainIdentifier(y)
    ensures Slug(x) == Slug(y) <==> Map(x, LowerChar) == Map(y, LowerChar)
  {
    hide Slug;
    PlainSlug(x);
    PlainSlug(y);
  }

  // ---- Import aliases ---------------------------------------------------------------------

  function Alias(serverSlug: string, toolSlug: string): string {
    "_" + serverSlug + "__" + toolSlug
  }

  /** `longer` continues `shorter` with a double underscore, and the tool slugs make up for it. */
  predicate Absorbs(shorter: string, tool: string, longer: string, otherTool: string) {
    var start := shorter + "__";
    start <= longer && tool == longer[|start|..] + "__" + otherTool
  }

  /** Two tools get the same import alias, and so one implementation for both, exactly if
      one server slug absorbs a double underscore of the other's tool slug. */
  lemma AliasesCollide(a: string, x: string, b: string, y: string)
    requires IsModuleName(a) && IsModuleName(b) && IsModuleName(x) && IsModuleName(y)
    ensures Alias(a, x) == Alias(b, y) <==> (a == b && x == y) || Absorbs(a, x, b, y) || Absorbs(b, y, a, x)
  {
    if Alias(a, x) == Alias(b, y) {
      if |a| <= |b| {
        AliasSplit(a, x, b, y);
      } else {
        AliasSplit(b, y, a, x);
      }
    }
    if Absorbs(a, x, b, y) {
      AbsorbedAlias(a, x, b, y);
    }
    if Absorbs(b, y, a, x) {
      AbsorbedAlias(b, y, a, x);
    }
  }

  lemma AbsorbedAlias(a: string, x: string, b: string, y: string)
    requires Absorbs(a, x, b, y)
    ensures Alias(a, x) == Alias(b, y)
  {
    var rest := b[|a + "__"|..];
    assert b == a + "__" + rest;
    assert Alias(a, x) == "_" + a + "__" + rest + "__" + y;
    assert Alias(b, y) == "_" + a + "__" + rest + "__" + y;
  }

  lemma AliasSplit(a: string, x: string, b: string, y: string)
    requires IsModuleName(a) && IsModuleName(b) && IsModuleName(x) && IsModuleName(y)
    requires Alias(a, x) == Alias(b, y) && |a| <= |b|
    ensures (a == b && x == y) || Absorbs(a, x, b, y)
  {
    var whole := Alias(a, x);
    assert a == whole[1..1 + |a|] && b == whole[1..1 + |b|];
    assert x == whole[3 + |a|..] && y == whole[3 + |b|..];
    assert whole[1 + |a|] == whole[2 + |a|] == whole[1 + |b|] == whole[2 + |b|] == '_';
    assert whole[|b|] == b[|b| - 1];
    if |b| > |a| {
      var rest := whole[3 + |a|..1 + |b|];
      assert b == a + "__" + rest;
      assert x == rest + "__" + y;
    }
  }

  // ---- The exported server ------------------------------------------------------------------

  /** A function of that name in the module of that tool. */
  datatype Loaded = Loaded(from: BundledTool, name: string)

  function AliasOf(t: BundledTool): string {
    Alias(t.slug, Slug(t.tool))
  }

  /** Every tool has its module file, which may be another tool's. */
  ghost predicate HasModules(files: map<string, File>, tools: seq<BundledTool>) {
    forall t :: t in tools ==> ModulePath(t.slug, t.tool) in files && files[ModulePath(t.slug, t.tool)].Module?
  }

  function ModuleOf(files: map<string, File>, t: BundledTool): BundledTool
    requires ModulePath(t.slug, t.tool) in files && files[ModulePath(t.slug, t.tool)].Module?
  {
    files[ModulePath(t.slug, t.tool)].of
  }

  ghost predicate SlugPerServer(tools: seq<BundledTool>) {
    forall t, u :: t in tools && u in tools && t.server == u.server ==> t.slug == u.slug
  }

  /** Each alias stands for what the import of some tool of that alias brought in. */
  ghost predicate Imported(files: map<string, File>, aliases: map<string, Loaded>, tools: seq<BundledTool>)
    requires HasModules(files, tools)
  {
    && (forall t :: t in tools ==> AliasOf(t) in aliases)
    && (forall a :: a in aliases ==> exists t :: t in tools && AliasOf(t) == a && aliases[a] == Loaded(ModuleOf(files, t), t.tool))
  }

  /** The import lines of `server.py`; `bindings` are the names a tool's source defines. An
      import of a name the module does not define ends the start of the server. */
  method RunImports(files: map<string, File>, tools: seq<BundledTool>, bindings: BundledTool -> set<string>)
    returns (aliases: Option<map<string, Loaded>>)
    requires HasModules(files, tools)
    ensures aliases.Some? <==> forall t :: t in tools ==> t.tool in bindings(ModuleOf(files, t))
    ensures aliases.Some? ==> Imported(files, aliases.value, tools)
  {
    hide AliasOf, ModulePath;
    var loaded: map<string, Loaded> := map[];
    for n := 0 to |tools|
      invariant forall i :: 0 <= i < n ==> tools[i].tool in bindings(ModuleOf(files, tools[i]))
      invariant forall i :: 0 <= i < n ==> AliasOf(tools[i]) in loaded
      invariant forall a :: a in loaded ==>
        exists t :: t in tools && AliasOf(t) == a && loaded[a] == Loaded(ModuleOf(files, t), t.tool)
    {
      var t := tools[n];
      if t.tool !in bindings(ModuleOf(files, t)) {
        return None;
      }
      var alias := AliasOf(t);
      loaded := loaded[alias := Loaded(ModuleOf(files, t), t.tool)];
      assert t in tools && AliasOf(t) == alias && loaded[alias] == Loaded(ModuleOf(files, t), t.tool);
    }
    aliases := Some(loaded);
  }

  /** The registration lines: each tool under its own name, as what its alias stands for. */
  method RunRegistrations(aliases: map<string, Loaded>, tools: seq<BundledTool>) returns (registry: map<(string, string), Loaded>)
    requires SlugPerServer(tools) && forall t :: t in tools ==> AliasOf(t) in aliases
    ensures forall t :: t in tools ==> (t.server, t.tool) in registry && registry[(t.server, t.tool)] == aliases[AliasOf(t)]
  {
    hide Slug;
    registry := map[];
    for n := 0 to |tools|
      invariant forall i :: 0 <= i < n ==>
        (tools[i].server, tools[i].tool) in registry
        && registry[(tools[i].server, tools[i].tool)] == aliases[AliasOf(tools[i])]
    {
      assert forall i :: 0 <= i < n ==> tools[i] in tools && tools[n] in tools;
      registry := registry[(tools[n].server, tools[n].tool) := aliases[AliasOf(tools[n])]];
    }
  }

  /** Every tool of the exported server runs the function its author wrote for it. */
  ghost predicate RunsOwn(registry: Option<map<(string, string), Loaded>>, tools: seq<BundledTool>) {
    && registry.Some?
    && forall t :: t in tools ==>
         (t.server, t.tool) in registry.value && registry.value[(t.server, t.tool)] == Loaded(t, t.tool)
  }

  /** No server slug absorbs a double underscore of another tool's slug. */
  ghost predicate NoneAbsorbs(tools: seq<BundledTool>) {
    forall t, u :: t in tools && u in tools ==> !Absorbs(t.slug, Slug(t.tool), u.slug, Slug(u.tool))
  }

  ghost predicate AliasesDistinct(tools: seq<BundledTool>) {
    forall t, u :: t in tools && u in tools && t != u ==> AliasOf(t) != AliasOf(u)
  }

  lemma SameAlias(tools: seq<BundledTool>, t: BundledTool, u: BundledTool)
    requires WellSlugged(tools) && t in tools && u in tools
    ensures AliasOf(t) == AliasOf(u) <==>
              (t.slug == u.slug && Slug(t.tool) == Slug(u.tool))
              || Absorbs(t.slug, Slug(t.tool), u.slug, Slug(u.tool)) || Absorbs(u.slug, Slug(u.tool), t.slug, Slug(t.tool))
  {
    SlugIsModuleName(t.tool);
    SlugIsModuleName(u.tool);
    hide Slug, Absorbs, Alias, IsModuleName;
    AliasesCollide(t.slug, Slug(t.tool), u.slug, Slug(u.tool));
  }

  lemma NoSelfAbsorption(slug: string, tool: string, other: string)
    ensures !Absorbs(slug, tool, slug, other)
  {
  }

  lemma DistinctAliases(tools: seq<BundledTool>)
    requires WellSlugged(tools) && SlugPerServer(tools)
    ensures AliasesDistinct(tools) <==> ToolSlugsDistinct(tools) && NoneAbsorbs(tools)
  {
    hide Slug, Absorbs, AliasOf, IsModuleName;
    forall t, u | t in tools && u in tools
      ensures AliasOf(t) == AliasOf(u) <==>
                (t.slug == u.slug && Slug(t.tool) == Slug(u.tool))
                || Absorbs(t.slug, Slug(t.tool), u.slug, Slug(u.tool)) || Absorbs(u.slug, Slug(u.tool), t.slug, Slug(t.tool))
      ensures t == u ==> !Absorbs(t.slug, Slug(t.tool), u.slug, Slug(u.tool))
    {
      SameAlias(tools, t, u);
      NoSelfAbsorption(t.slug, Slug(t.tool), Slug(t.tool));
    }
  }

  /** From the bundle to the running server: it starts, with every tool running its own
      function, exactly if no server has two tools with one slug and no server slug absorbs
      a double underscore of another tool's. Authoring guarantees that a tool's source
      defines the tool's name. */
  method ExportServer(tools: seq<BundledTool>, bindings: BundledTool -> set<string>)
    returns (files: map<string, File>, registry: Option<map<(string, string), Loaded>>)
    requires WellSlugged(tools) && SlugPerServer(tools)
    requires forall t :: t in tools ==> t.tool in bindings(t)
    ensures HasModules(files, tools)
    ensures registry.Some? <==> forall t :: t in tools ==> t.tool in bindings(ModuleOf(files, t))
    ensures Keeps(files, tools) <==> ToolSlugsDistinct(tools)
    ensures forall t :: t in tools ==> "tools/" + t.slug + "/" + Slug(t.tool) + ".py" in files
    ensures forall t :: t in tools ==> "tools/" + t.slug + "/__init__.py" in files && files["tools/" + t.slug + "/__init__.py"] == PackageInit
    ensures RunsOwn(registry, tools) <==> ToolSlugsDistinct(tools) && NoneAbsorbs(tools)
  {
    hide AliasesDistinct, NoneAbsorbs, ToolSlugsDistinct, AliasOf, ModulePath, InitPath, IsModuleName, WellSlugged, SlugPerServer;
    ProvideSlugs(tools);
    files := RenderModules(tools);
    ModulesThere(files, tools);
    Layout(tools);
    DistinctAliases(tools);
    var aliases := RunImports(files, tools, bindings);
    if aliases.None? {
      NotDistinct(files, tools, bindings);
      return files, None;
    }
    var registered := RunRegistrations(aliases.value, tools);
    registry := Some(registered);
    OwnExactly(files, tools, aliases.value, registered);
  }

  lemma ProvideSlugs(tools: seq<BundledTool>)
    requires SlugPerServer(tools)
    ensures forall t, u :: t in tools && u in tools && t.server == u.server ==> t.slug == u.slug
  {
  }

  lemma Layout(tools: seq<BundledTool>)
    ensures forall t :: t in tools ==> ModulePath(t.slug, t.tool) == "tools/" + t.slug + "/" + Slug(t.tool) + ".py"
    ensures forall t :: t in tools ==> InitPath(t.slug) == "tools/" + t.slug + "/__init__.py"
  {
    hide Slug;
    forall t | t in tools
      ensures ModulePath(t.slug, t.tool) == "tools/" + t.slug + "/" + Slug(t.tool) + ".py"
      ensures InitPath(t.slug) == "tools/" + t.slug + "/__init__.py"
    {
    }
  }

  lemma ModulesThere(files: map<string, File>, tools: seq<BundledTool>)
    requires forall i :: 0 <= i < |tools| ==> LastAt(files, tools, i, |tools|)
    ensures HasModules(files, tools)
  {
    hide ModulePath;
    forall t | t in tools
      ensures ModulePath(t.slug, t.tool) in files && files[ModulePath(t.slug, t.tool)].Module?
    {
      var i :| 0 <= i < |tools| && tools[i] == t;
      assert LastAt(files, tools, i, |tools|);
    }
  }

  lemma NotDistinct(files: map<string, File>, tools: seq<BundledTool>, bindings: BundledTool -> set<string>)
    requires HasModules(files, tools) && forall t :: t in tools ==> t.tool in bindings(t)
    requires !(forall t :: t in tools ==> t.tool in bindings(ModuleOf(files, t)))
    ensures !Keeps(files, tools)
  {
  }

  lemma OwnExactly(files: map<string, File>, tools: seq<BundledTool>, aliases: map<string, Loaded>, registry: map<(string, string), Loaded>)
    requires HasModules(files, tools) && Imported(files, aliases, tools)
    requires Keeps(files, tools) <==> ToolSlugsDistinct(tools)
    requires AliasesDistinct(tools) ==> ToolSlugsDistinct(tools)
    requires forall t :: t in tools ==> (t.server, t.tool) in registry && registry[(t.server, t.tool)] == aliases[AliasOf(t)]
    ensures RunsOwn(Some(registry), tools) <==> AliasesDistinct(tools)
  {
    hide AliasOf, ModulePath, ToolSlugsDistinct;
    if AliasesDistinct(tools) {
      forall t | t in tools
        ensures registry[(t.server, t.tool)] == Loaded(t, t.tool)
      {
        var u :| u in tools && AliasOf(u) == AliasOf(t) && aliases[AliasOf(t)] == Loaded(ModuleOf(files, u), u.tool);
        assert u == t && ModuleOf(files, t) == t;
      }
    }
    if RunsOwn(Some(registry), tools) {
      forall t, u | t in tools && u in tools && t != u
        ensures AliasOf(t) != AliasOf(u)
      {
        assert registry[(t.server, t.tool)] == Loaded(t, t.tool) && registry[(u.server, u.tool)] == Loaded(u, u.tool);
      }
    }
  }

  /** `Add` and `add` are two tools of one server: an export keeps only one of their modules,
      and starts only if what is kept happens to define the other's name too. */
  lemma SlugCollision(server: string, slug: string, files: map<string, File>, bindings: BundledTool -> set<string>)
    requires IsModuleName(slug)
    requires HasModules(files, [BundledTool(server, slug, "Add"), BundledTool(server, slug, "add")])
    requires ModuleOf(files, BundledTool(server, slug, "Add")) in [BundledTool(server, slug, "Add"), BundledTool(server, slug, "add")]
    ensures var upper, lower := BundledTool(server, slug, "Add"), BundledTool(server, slug, "add");
            var tools := [upper, lower];
            && WellSlugged(tools) && !ToolSlugsDistinct(tools) && !Keeps(files, tools)
            && ModuleOf(files, upper) == ModuleOf(files, lower)
            && ("add" !in bindings(upper) && "Add" !in bindings(lower) ==>
                  !(forall t :: t in tools ==> t.tool in bindings(ModuleOf(files, t))))
  {
    hide Slug, IsModuleName;
    var upper, lower := BundledTool(server, slug, "Add"), BundledTool(server, slug, "add");
    var tools := [upper, lower];
    assert IsPlainIdentifier("Add") && IsPlainIdentifier("add");
    PlainSlugsCollide("Add", "add");
    assert Map("Add", LowerChar) == Map("add", LowerChar);
    assert tools[0] in tools && tools[1] in tools && tools[0] != tools[1];
    assert ModulePath(slug, "Add") == ModulePath(slug, "add");
    assert ModuleOf(files, upper) == upper || ModuleOf(files, upper) == lower;
  }

  /** Tool `b__c` of server `a` and tool `c` of server `a__b`: all slugs are distinct, and yet
      the export gives both one alias. */
  lemma AliasCollision()
    ensures Alias(Slug("a"), Slug("b__c")) == Alias(Slug("a__b"), Slug("c"))
    ensures var tools := [BundledTool("a", Slug("a"), "b__c"), BundledTool("a__b", Slug("a__b"), "c")];
            WellSlugged(tools) && SlugPerServer(tools) && ToolSlugsDistinct(tools) && !NoneAbsorbs(tools)
  {
    NamesAsSlugs();
    hide Slug;
    var tools := [BundledTool("a", "a", "b__c"), BundledTool("a__b", "a__b", "c")];
    assert Alias("a", "b__c") == "_a__b__c" == Alias("a__b", "c");
    assert IsModuleName("a") && IsModuleName("a__b");
    assert forall t :: t in tools ==> t == tools[0] || t == tools[1];
    assert tools[0] in tools && tools[1] in tools;
    assert "a__b"[|"a__"|..] == "b" && "b" + "__" + "c" == "b__c";
    assert Absorbs("a", "b__c", "a__b", "c");
  }

  lemma NamesAsSlugs()
    ensures Slug("a") == "a" && Slug("b__c") == "b__c" && Slug("a__b") == "a__b" && Slug("c") == "c"
  {
    hide Slug;
    PlainSlug("a");
    PlainSlug("b__c");
    PlainSlug("a__b");
    PlainSlug("c");
    assert Map("a", LowerChar) == "a" && Map("c", LowerChar) == "c";
    assert Map("b__c", LowerChar) == "b__c" && Map("a__b", LowerChar) == "a__b";
  }
}
