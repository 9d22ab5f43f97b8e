/** Building the agent tools of an MCP catalog: callable tools first, then the session-denied
    and the app-only inventory, every one with a safe name of its own. */
module ToolCatalog {
  import opened Base
  import opened Sorting
  import opened Text
  import opened ToolNames
  import opened McpTools

  /** `denied` are the tool names the session denies, `excluded` those its filter rejects. */
  datatype Server = Server(
    serverName: Str,
    safeServerName: Option<Str>,
    resources: bool,
    prompts: bool,
    denied: set<Str>,
    excluded: set<Str>)

  datatype Catalog = Catalog(servers: seq<Server>, tools: seq<CatalogTool>, sessionDeniedTools: Option<seq<CatalogTool>>)

  datatype Origin = FromTool(tool: CatalogTool) | FromUtility(server: Server, operation: Str)

  datatype AgentTool = AgentTool(name: Str, origin: Origin)

  /** A name still to be allocated. */
  datatype Request = Request(server: Str, tool: Str, origin: Origin)

  // ---------------------------------------------------------------------------
  // What each pass asks for
  // ---------------------------------------------------------------------------

  function Units(s: string): Str {
    seq(|s|, i requires 0 <= i < |s| => s[i] as int)
  }

  const RESOURCES_LIST: Str := Units("resources_list")
  const RESOURCES_READ: Str := Units("resources_read")
  const PROMPTS_LIST: Str := Units("prompts_list")
  const PROMPTS_GET: Str := Units("prompts_get")

  function ServerOrder(collate: Collation): (Server, Server) -> bool {
    (a: Server, b: Server) => collate(a.serverName) <= collate(b.serverName)
  }

  function NameOrder(collate: Collation): (AgentTool, AgentTool) -> bool {
    (a: AgentTool, b: AgentTool) => collate(a.name) <= collate(b.name)
  }

  function AppOnly(): CatalogTool -> bool {
    (t: CatalogTool) => t.appOnly
  }

  /** The catalog tools a pass considers. */
  function PassTools(c: Catalog, denied: bool, appOnly: bool): seq<CatalogTool> {
    if appOnly then Filter(c.tools, AppOnly())
    else if denied then (if c.sessionDeniedTools.Some? then c.sessionDeniedTools.value else [])
    else c.tools
  }

  /** App-only tools count only in their own inventory; blank names never. */
  predicate Wanted(t: CatalogTool, appOnly: bool) {
    (t.appOnly ==> appOnly) && Trim(t.toolName) != []
  }

  function ToolRequests(tools: seq<CatalogTool>, appOnly: bool): seq<Request> {
    if tools == [] then []
    else
      var t, before := tools[|tools| - 1], ToolRequests(tools[..|tools| - 1], appOnly);
      if Wanted(t, appOnly) then before + [Request(t.safeServerName, Trim(t.toolName), FromTool(t))] else before
  }

  /** The executable pass takes the utilities the session allows, the denied pass the others. */
  predicate AllowsUtility(s: Server, operation: Str, denied: bool) {
    (operation in s.denied <==> denied) && operation !in s.excluded
  }

  function UtilityRequest(s: Server, present: bool, operation: Str, denied: bool): seq<Request> {
    if present && AllowsUtility(s, operation, denied)
    then [Request(if s.safeServerName.Some? then s.safeServerName.value else s.serverName, operation, FromUtility(s, operation))]
    else []
  }

  function ServerRequests(s: Server, denied: bool): seq<Request> {
    UtilityRequest(s, s.resources, RESOURCES_LIST, denied)
    + UtilityRequest(s, s.resources, RESOURCES_READ, denied)
    + UtilityRequest(s, s.prompts, PROMPTS_LIST, denied)
    + UtilityRequest(s, s.prompts, PROMPTS_GET, denied)
  }

  function UtilityRequests(servers: seq<Server>, denied: bool): seq<Request> {
    if servers == [] then []
    else UtilityRequests(servers[..|servers| - 1], denied) + ServerRequests(servers[|servers| - 1], denied)
  }

  function PassRequests(c: Catalog, denied: bool, appOnly: bool, collate: Collation): seq<Request> {
    ToolRequests(Sort(PassTools(c, denied, appOnly), ToolOrder(collate)), appOnly)
    + UtilityRequests(Sort(c.servers, ServerOrder(collate)), denied)
  }

  // ---------------------------------------------------------------------------
  // Allocation
  // ---------------------------------------------------------------------------

  function NormsOf(tools: seq<AgentTool>): set<Str> {
    set t | t in tools :: Norm(t.name)
  }

  function NormalizeReserved(names: set<Str>): set<Str> {
    (set n | n in names :: Norm(n)) - {[]}
  }

  /** Each request gets a name that is free of the reserved and the earlier ones. */
  function AllocateAll(requests: seq<Request>, reserved: set<Str>): (tools: seq<AgentTool>)
    ensures |tools| == |requests|
  {
    if requests == [] then []
    else
      var r, before := requests[|requests| - 1], AllocateAll(requests[..|requests| - 1], reserved);
      before + [AgentTool(ToolName(r.server, r.tool, reserved + NormsOf(before)), r.origin)]
  }

  /** What listing with these flags yields: hidden inventory is allocated after the callable tools. */
  function Build(c: Catalog, reserved: set<Str>, denied: bool, appOnly: bool, collate: Collation): seq<AgentTool>
    decreases denied, appOnly
  {
    var initial := NormalizeReserved(reserved);
    var base := Earlier(c, reserved, denied, appOnly, collate);
    Sort(base + AllocateAll(PassRequests(c, denied, appOnly, collate), Taken(initial, base)), NameOrder(collate))
  }

  /** The tools of the passes before this one. */
  function Earlier(c: Catalog, reserved: set<Str>, denied: bool, appOnly: bool, collate: Collation): seq<AgentTool>
    decreases denied, appOnly, 0
  {
    if appOnly then Build(c, NormalizeReserved(reserved), denied, false, collate)
    else if denied then Build(c, NormalizeReserved(reserved), false, appOnly, collate)
    else []
  }

  function Taken(initial: set<Str>, base: seq<AgentTool>): set<Str> {
    NormalizeReserved(initial + set t | t in base :: t.name)
  }

  // ---------------------------------------------------------------------------
  // Distinct names
  // ---------------------------------------------------------------------------

  ghost predicate DistinctNames(tools: seq<AgentTool>) {
    forall i, j :: 0 <= i < j < |tools| ==> Norm(tools[i].name) != Norm(tools[j].name)
  }

  ghost predicate AvoidsNames(tools: seq<AgentTool>, taken: set<Str>) {
    forall t :: t in tools ==> Norm(t.name) !in taken && Norm(t.name) != []
  }

  lemma DistinctSnoc(before: seq<AgentTool>, t: AgentTool, taken: set<Str>)
    requires DistinctNames(before) && AvoidsNames(before, taken)
    requires Norm(t.name) !in taken + NormsOf(before) && Norm(t.name) != []
    ensures DistinctNames(before + [t]) && AvoidsNames(before + [t], taken)
  {
    hide Norm;
    forall i | 0 <= i < |before| ensures Norm(before[i].name) != Norm(t.name) {
      assert before[i] in before && Norm(before[i].name) in NormsOf(before);
    }
  }

  lemma {:induction false} AllocatedDistinct(requests: seq<Request>, reserved: set<Str>)
    ensures DistinctNames(AllocateAll(requests, reserved)) && AvoidsNames(AllocateAll(requests, reserved), reserved)
  {
    if requests != [] {
      hide Norm, ToolName, DistinctNames, AvoidsNames, NormsOf;
      var r, init := requests[|requests| - 1], requests[..|requests| - 1];
      AllocatedDistinct(init, reserved);
      var before := AllocateAll(init, reserved);
      var taken := reserved + NormsOf(before);
      ToolNameNotBlank(r.server, r.tool, taken);
      DistinctSnoc(before, AgentTool(ToolName(r.server, r.tool, taken), r.origin), reserved);
    }
  }

  lemma NormalizeReservedTwice(names: set<Str>)
    ensures NormalizeReserved(NormalizeReserved(names)) == NormalizeReserved(names)
  {
    hide Norm;
    var once := NormalizeReserved(names);
    forall n | n in once ensures Norm(n) == n {
      var m :| m in names && Norm(m) == n;
      NormIdempotent(m);
    }
    forall n | n in once ensures n in NormalizeReserved(once) {
      assert Norm(n) == n;
    }
  }

  /** The taken names are the reserved ones and those of the earlier tools. */
  lemma TakenCovers(reserved: set<Str>, base: seq<AgentTool>)
    ensures NormalizeReserved(reserved) <= Taken(NormalizeReserved(reserved), base)
    ensures forall t :: t in base && Norm(t.name) != [] ==> Norm(t.name) in Taken(NormalizeReserved(reserved), base)
  {
    hide Norm;
    var initial := NormalizeReserved(reserved);
    NormalizeReservedTwice(reserved);
    var all := initial + set t | t in base :: t.name;
    assert initial <= all;
    forall n | n in NormalizeReserved(initial) ensures n in NormalizeReserved(all) {
      var m :| m in initial && Norm(m) == n;
      assert m in all;
    }
    forall t | t in base && Norm(t.name) != [] ensures Norm(t.name) in NormalizeReserved(all) {
      assert t.name in all;
    }
  }

  lemma SortKeepsDistinct(tools: seq<AgentTool>, le: (AgentTool, AgentTool) -> bool)
    requires DistinctNames(tools)
    ensures DistinctNames(Sort(tools, le))
  {
    hide Norm, Sort;
    var r := Sort(tools, le);
    assert NoDup(tools);
    SortNoDup(tools, le);
    SortSameElements(tools, le);
    forall i, j | 0 <= i < j < |r| ensures Norm(r[i].name) != Norm(r[j].name) {
      assert r[i] in tools && r[j] in tools && r[i] != r[j];
      var a :| 0 <= a < |tools| && tools[a] == r[i];
      var b :| 0 <= b < |tools| && tools[b] == r[j];
      assert a < b || b < a;
    }
  }

  /** The new tools of a pass differ from the earlier ones and among themselves. */
  lemma PassIsDistinct(base: seq<AgentTool>, requests: seq<Request>, reserved: set<Str>)
    requires DistinctNames(base) && AvoidsNames(base, NormalizeReserved(reserved))
    ensures var more := AllocateAll(requests, Taken(NormalizeReserved(reserved), base));
            && DistinctNames(base + more) && AvoidsNames(base + more, NormalizeReserved(reserved))
            && (forall t :: t in more ==> t !in base)
  {
    hide Norm, Taken, NormalizeReserved, AllocateAll;
    var taken := Taken(NormalizeReserved(reserved), base);
    var more := AllocateAll(requests, taken);
    AllocatedDistinct(requests, taken);
    TakenCovers(reserved, base);
    var all := base + more;
    forall i, j | 0 <= i < j < |all| ensures Norm(all[i].name) != Norm(all[j].name) {
      if i < |base| <= j {
        assert all[i] in base && all[j] in more;
      }
    }
  }

  /** For every catalog, reserved names and flags: the tool names differ pairwise ignoring case
      and none is a reserved name. */
  lemma {:induction false} NamesAreDistinct(c: Catalog, reserved: set<Str>, denied: bool, appOnly: bool, collate: Collation)
    ensures DistinctNames(Build(c, reserved, denied, appOnly, collate))
    ensures AvoidsNames(Build(c, reserved, denied, appOnly, collate), NormalizeReserved(reserved))
    decreases denied, appOnly
  {
    hide Norm, Taken, NormalizeReserved, AllocateAll, PassRequests, Sort;
    var base := Earlier(c, reserved, denied, appOnly, collate);
    NormalizeReservedTwice(reserved);
    if appOnly {
      NamesAreDistinct(c, NormalizeReserved(reserved), denied, false, collate);
    } else if denied {
      NamesAreDistinct(c, NormalizeReserved(reserved), false, appOnly, collate);
    }
    var requests := PassRequests(c, denied, appOnly, collate);
    PassIsDistinct(base, requests, reserved);
    var all := base + AllocateAll(requests, Taken(NormalizeReserved(reserved), base));
    SortKeepsDistinct(all, NameOrder(collate));
    SortSameElements(all, NameOrder(collate));
  }

  // ---------------------------------------------------------------------------
  // Inventory never renames callable tools
  // ---------------------------------------------------------------------------

  lemma {:induction false} SortOfSorted(s: seq<AgentTool>, le: (AgentTool, AgentTool) -> bool)
    requires Sorted(s, le)
    ensures Sort(s, le) == s
  {
    if s != [] {
      SortOfSorted(s[..|s| - 1], le);
    }
  }

  function Among(base: seq<AgentTool>): AgentTool -> bool {
    (t: AgentTool) => t in base
  }

  /** A pass leaves the earlier tools as they are, with their names and in their order. */
  lemma PassKeepsEarlier(base: seq<AgentTool>, more: seq<AgentTool>, collate: Collation)
    requires Sorted(base, NameOrder(collate)) && forall t :: t in more ==> t !in base
    ensures Filter(Sort(base + more, NameOrder(collate)), Among(base)) == base
  {
    hide Sort, Filter;
    var order, p := NameOrder(collate), Among(base);
    assert TotalPreorder(order);
    SortThenFilter(base + more, p, order);
    FilterConcat(base, more, p);
    FilterAll(base, p);
    FilterNone(more, p);
    assert base + [] == base;
    SortOfSorted(base, order);
  }

  /** Listing one more kind of inventory keeps what is listed without it. */
  lemma InventoryKeeps(c: Catalog, reserved: set<Str>, denied: bool, appOnly: bool, collate: Collation)
    ensures var base := Earlier(c, reserved, denied, appOnly, collate);
            Filter(Build(c, reserved, denied, appOnly, collate), Among(base)) == base
  {
    hide Norm, Taken, NormalizeReserved, AllocateAll, PassRequests, Sort, Filter;
    var base := Earlier(c, reserved, denied, appOnly, collate);
    NormalizeReservedTwice(reserved);
    if appOnly {
      NamesAreDistinct(c, NormalizeReserved(reserved), denied, false, collate);
      BuildSorted(c, NormalizeReserved(reserved), denied, false, collate);
    } else if denied {
      NamesAreDistinct(c, NormalizeReserved(reserved), false, appOnly, collate);
      BuildSorted(c, NormalizeReserved(reserved), false, appOnly, collate);
    }
    var requests := PassRequests(c, denied, appOnly, collate);
    PassIsDistinct(base, requests, reserved);
    PassKeepsEarlier(base, AllocateAll(requests, Taken(NormalizeReserved(reserved), base)), collate);
  }

  lemma BuildSorted(c: Catalog, reserved: set<Str>, denied: bool, appOnly: bool, collate: Collation)
    ensures Sorted(Build(c, reserved, denied, appOnly, collate), NameOrder(collate))
  {
    hide Sort;
    var base := Earlier(c, reserved, denied, appOnly, collate);
    assert TotalPreorder(NameOrder(collate));
    SortSorted(base + AllocateAll(PassRequests(c, denied, appOnly, collate), Taken(NormalizeReserved(reserved), base)),
               NameOrder(collate));
  }

  /** Only the normalised reserved names matter. */
  lemma BuildNormalized(c: Catalog, reserved: set<Str>, denied: bool, appOnly: bool, collate: Collation)
    ensures Build(c, NormalizeReserved(reserved), denied, appOnly, collate) == Build(c, reserved, denied, appOnly, collate)
  {
    hide NormalizeReserved, Sort, AllocateAll, Taken, PassRequests;
    NormalizeReservedTwice(reserved);
  }

  /** With any inventory listed as well, the callable tools are there under exactly the names, and
      in the order, they have without it. */
  lemma CallableToolsKeepTheirNames(c: Catalog, reserved: set<Str>, denied: bool, appOnly: bool, collate: Collation)
    ensures var callable := Build(c, reserved, false, false, collate);
            Filter(Build(c, reserved, denied, appOnly, collate), Among(callable)) == callable
  {
    hide Norm, NormalizeReserved, Sort, Filter, Build;
    var callable := Build(c, reserved, false, false, collate);
    var full := Build(c, reserved, denied, appOnly, collate);
    BuildNormalized(c, reserved, false, false, collate);
    BuildNormalized(c, reserved, true, false, collate);
    if denied && appOnly {
      var middle := Build(c, reserved, true, false, collate);
      InventoryKeeps(c, reserved, true, true, collate);
      InventoryKeeps(c, reserved, true, false, collate);
      assert Filter(full, Among(middle)) == middle && Filter(middle, Among(callable)) == callable;
      FilterTwice(full, Among(middle), Among(callable), Among(callable));
    } else if denied || appOnly {
      InventoryKeeps(c, reserved, denied, appOnly, collate);
    } else {
      FilterAll(callable, Among(callable));
    }
  }

  // ---------------------------------------------------------------------------
  // Which tools are listed
  // ---------------------------------------------------------------------------

  /** How many tools come from an origin. */
  function CountOrigin(tools: seq<AgentTool>, o: Origin): nat {
    if tools == [] then 0
    else CountOrigin(tools[..|tools| - 1], o) + (if tools[|tools| - 1].origin == o then 1 else 0)
  }

  function CountRequests(requests: seq<Request>, o: Origin): nat {
    if requests == [] then 0
    else CountRequests(requests[..|requests| - 1], o) + (if requests[|requests| - 1].origin == o then 1 else 0)
  }

  lemma {:induction false} CountConcat(a: seq<AgentTool>, b: seq<AgentTool>, o: Origin)
    ensures CountOrigin(a + b, o) == CountOrigin(a, o) + CountOrigin(b, o)
  {
    if b == [] {
      assert a + b == a;
    } else {
      assert (a + b)[..|a + b| - 1] == a + b[..|b| - 1];
      CountConcat(a, b[..|b| - 1], o);
    }
  }

  lemma {:induction false} CountRequestsConcat(a: seq<Request>, b: seq<Request>, o: Origin)
    ensures CountRequests(a + b, o) == CountRequests(a, o) + CountRequests(b, o)
  {
    if b == [] {
      assert a + b == a;
    } else {
      assert (a + b)[..|a + b| - 1] == a + b[..|b| - 1];
      CountRequestsConcat(a, b[..|b| - 1], o);
    }
  }

  lemma CountSnoc(s: seq<AgentTool>, x: AgentTool, o: Origin)
    ensures CountOrigin(s + [x], o) == CountOrigin(s, o) + (if x.origin == o then 1 else 0)
  {
    assert (s + [x])[..|s|] == s;
  }

  lemma {:induction false} CountInsert(x: AgentTool, s: seq<AgentTool>, le: (AgentTool, AgentTool) -> bool, o: Origin)
    ensures CountOrigin(Insert(x, s, le), o) == CountOrigin(s, o) + (if x.origin == o then 1 else 0)
  {
    hide CountOrigin;
    CountSnoc(s, x, o);
    if s != [] && !le(s[|s| - 1], x) {
      var init, last := s[..|s| - 1], s[|s| - 1];
      assert s == init + [last];
      CountInsert(x, init, le, o);
      CountSnoc(Insert(x, init, le), last, o);
      CountSnoc(init, last, o);
    }
  }

  lemma {:induction false} CountSort(s: seq<AgentTool>, le: (AgentTool, AgentTool) -> bool, o: Origin)
    ensures CountOrigin(Sort(s, le), o) == CountOrigin(s, o)
  {
    if s != [] {
      hide Insert;
      var init, last := s[..|s| - 1], s[|s| - 1];
      CountSort(init, le, o);
      CountInsert(last, Sort(init, le), le, o);
    }
  }

  lemma {:induction false} CountAllocated(requests: seq<Request>, reserved: set<Str>, o: Origin)
    ensures CountOrigin(AllocateAll(requests, reserved), o) == CountRequests(requests, o)
  {
    if requests != [] {
      CountAllocated(requests[..|requests| - 1], reserved, o);
    }
  }

  function PassCount(c: Catalog, denied: bool, appOnly: bool, collate: Collation, o: Origin): nat {
    CountRequests(PassRequests(c, denied, appOnly, collate), o)
  }

  lemma BuildCounts(c: Catalog, reserved: set<Str>, denied: bool, appOnly: bool, collate: Collation, o: Origin)
    ensures CountOrigin(Build(c, reserved, denied, appOnly, collate), o)
         == CountOrigin(Earlier(c, reserved, denied, appOnly, collate), o) + PassCount(c, denied, appOnly, collate, o)
  {
    hide Sort, AllocateAll, PassRequests, Taken, NormalizeReserved;
    var base := Earlier(c, reserved, denied, appOnly, collate);
    var requests, taken := PassRequests(c, denied, appOnly, collate), Taken(NormalizeReserved(reserved), base);
    CountSort(base + AllocateAll(requests, taken), NameOrder(collate), o);
    CountConcat(base, AllocateAll(requests, taken), o);
    CountAllocated(requests, taken, o);
  }

  /** Each tool is listed exactly as often as the passes ask for it: none is lost and none invented. */
  lemma ListedExactly(c: Catalog, reserved: set<Str>, denied: bool, appOnly: bool, collate: Collation, o: Origin)
    ensures CountOrigin(Build(c, reserved, denied, appOnly, collate), o)
         == PassCount(c, false, false, collate, o)
            + (if denied then PassCount(c, true, false, collate, o) else 0)
            + (if appOnly then PassCount(c, denied, true, collate, o) else 0)
  {
    hide Build, PassCount, NormalizeReserved;
    BuildCounts(c, reserved, denied, appOnly, collate, o);
    BuildCounts(c, reserved, denied, false, collate, o);
    BuildCounts(c, reserved, false, false, collate, o);
    BuildNormalized(c, reserved, denied, false, collate);
    BuildNormalized(c, reserved, false, false, collate);
  }

  lemma {:induction false} ToolRequestsAreTools(tools: seq<CatalogTool>, appOnly: bool, s: Server, operation: Str)
    ensures CountRequests(ToolRequests(tools, appOnly), FromUtility(s, operation)) == 0
  {
    if tools != [] {
      ToolRequestsAreTools(tools[..|tools| - 1], appOnly, s, operation);
      var before := ToolRequests(tools[..|tools| - 1], appOnly);
      var t := tools[|tools| - 1];
      assert (before + [Request(t.safeServerName, Trim(t.toolName), FromTool(t))])[..|before|] == before;
    }
  }

  /** A utility the session denies belongs to the denied pass, any other to the executable one. */
  lemma DenialSplitsUtilities(s: Server, operation: Str, denied: bool)
    ensures AllowsUtility(s, operation, denied) <==> operation !in s.excluded && (operation in s.denied <==> denied)
    ensures !(AllowsUtility(s, operation, true) && AllowsUtility(s, operation, false))
  {
  }

  predicate Offers(s: Server, operation: Str) {
    || (s.resources && (operation == RESOURCES_LIST || operation == RESOURCES_READ))
    || (s.prompts && (operation == PROMPTS_LIST || operation == PROMPTS_GET))
  }

  lemma OperationsDiffer()
    ensures RESOURCES_LIST != RESOURCES_READ && RESOURCES_LIST != PROMPTS_LIST && RESOURCES_LIST != PROMPTS_GET
    ensures RESOURCES_READ != PROMPTS_LIST && RESOURCES_READ != PROMPTS_GET && PROMPTS_LIST != PROMPTS_GET
  {
    assert RESOURCES_LIST[10] == 'l' as int && RESOURCES_READ[10] == 'r' as int;
    assert |PROMPTS_LIST| == 12 && |PROMPTS_GET| == 11;
  }

  lemma OneRequest(r: Request, o: Origin)
    ensures CountRequests([r], o) == if r.origin == o then 1 else 0
  {
  }

  lemma UtilityRequestCount(t: Server, present: bool, named: Str, denied: bool, s: Server, operation: Str)
    ensures CountRequests(UtilityRequest(t, present, named, denied), FromUtility(s, operation))
         == if t == s && named == operation && present && AllowsUtility(s, operation, denied) then 1 else 0
  {
    if present && AllowsUtility(t, named, denied) {
      OneRequest(UtilityRequest(t, present, named, denied)[0], FromUtility(s, operation));
    }
  }

  lemma ServerRequestCount(t: Server, denied: bool, s: Server, operation: Str)
    ensures CountRequests(ServerRequests(t, denied), FromUtility(s, operation))
         == if t == s && Offers(s, operation) && AllowsUtility(s, operation, denied) then 1 else 0
  {
    hide CountRequests, UtilityRequest, AllowsUtility;
    OperationsDiffer();
    var o := FromUtility(s, operation);
    var a, b := UtilityRequest(t, t.resources, RESOURCES_LIST, denied), UtilityRequest(t, t.resources, RESOURCES_READ, denied);
    var c, d := UtilityRequest(t, t.prompts, PROMPTS_LIST, denied), UtilityRequest(t, t.prompts, PROMPTS_GET, denied);
    CountRequestsConcat(a + b + c, d, o);
    CountRequestsConcat(a + b, c, o);
    CountRequestsConcat(a, b, o);
    UtilityRequestCount(t, t.resources, RESOURCES_LIST, denied, s, operation);
    UtilityRequestCount(t, t.resources, RESOURCES_READ, denied, s, operation);
    UtilityRequestCount(t, t.prompts, PROMPTS_LIST, denied, s, operation);
    UtilityRequestCount(t, t.prompts, PROMPTS_GET, denied, s, operation);
  }

  lemma {:induction false} UtilityRequestsCount(servers: seq<Server>, denied: bool, s: Server, operation: Str)
    ensures CountRequests(UtilityRequests(servers, denied), FromUtility(s, operation))
         == if Offers(s, operation) && AllowsUtility(s, operation, denied) then multiset(servers)[s] else 0
  {
    hide ServerRequests, AllowsUtility, Offers;
    if servers != [] {
      var init, last := servers[..|servers| - 1], servers[|servers| - 1];
      UtilityRequestsCount(init, denied, s, operation);
      ServerRequestCount(last, denied, s, operation);
      CountRequestsConcat(UtilityRequests(init, denied), ServerRequests(last, denied), FromUtility(s, operation));
      assert servers == init + [last];
    }
  }

  lemma PassUtilityCount(c: Catalog, denied: bool, appOnly: bool, collate: Collation, s: Server, operation: Str)
    ensures PassCount(c, denied, appOnly, collate, FromUtility(s, operation))
         == if Offers(s, operation) && AllowsUtility(s, operation, denied) then multiset(c.servers)[s] else 0
  {
    hide Sort, ToolRequests, UtilityRequests, Offers, AllowsUtility;
    var servers, tools := Sort(c.servers, ServerOrder(collate)), Sort(PassTools(c, denied, appOnly), ToolOrder(collate));
    CountRequestsConcat(ToolRequests(tools, appOnly), UtilityRequests(servers, denied), FromUtility(s, operation));
    ToolRequestsAreTools(tools, appOnly, s, operation);
    UtilityRequestsCount(servers, denied, s, operation);
  }

  /** How often a utility is listed, for every combination of flags. A server that offers it and does
      not exclude it contributes one listing in the pass the utility belongs to, and the app-only pass
      lists the utilities of the pass before it once more. */
  lemma UtilityListings(c: Catalog, reserved: set<Str>, denied: bool, appOnly: bool, collate: Collation, s: Server, operation: Str)
    ensures var each := if Offers(s, operation) && operation !in s.excluded then multiset(c.servers)[s] else 0;
            CountOrigin(Build(c, reserved, denied, appOnly, collate), FromUtility(s, operation))
            == (if operation in s.denied && !denied then 0 else each)
               + (if appOnly && (operation in s.denied <==> denied) then each else 0)
  {
    hide Build, PassCount, Offers;
    ListedExactly(c, reserved, denied, appOnly, collate, FromUtility(s, operation));
    PassUtilityCount(c, false, false, collate, s, operation);
    PassUtilityCount(c, true, false, collate, s, operation);
    PassUtilityCount(c, denied, true, collate, s, operation);
    DenialSplitsUtilities(s, operation, false);
    DenialSplitsUtilities(s, operation, true);
  }

  /** When no server is declared twice, a utility is listed twice exactly when app-only inventory is
      listed too, its server offers it, and it belongs to the last ordinary pass: the callable
      utilities without denied inventory, the denied ones with it. None is listed more often. */
  lemma UtilityListedTwiceExactly(c: Catalog, reserved: set<Str>, denied: bool, appOnly: bool, collate: Collation, s: Server, operation: Str)
    requires NoDup(c.servers)
    ensures var n := CountOrigin(Build(c, reserved, denied, appOnly, collate), FromUtility(s, operation));
            && n <= 2
            && (n == 2 <==>
                  appOnly && s in c.servers && Offers(s, operation) && operation !in s.excluded && (operation in s.denied <==> denied))
  {
    hide Build, Offers;
    UtilityListings(c, reserved, denied, appOnly, collate, s, operation);
    DenialSplitsUtilities(s, operation, denied);
    NoDupCount(c.servers);
    assert s in c.servers <==> s in multiset(c.servers);
  }

  lemma {:induction false} ToolRequestsCount(tools: seq<CatalogTool>, appOnly: bool, t: CatalogTool)
    ensures CountRequests(ToolRequests(tools, appOnly), FromTool(t)) == if Wanted(t, appOnly) then multiset(tools)[t] else 0
  {
    if tools != [] {
      hide Wanted, Trim;
      var init, last := tools[..|tools| - 1], tools[|tools| - 1];
      ToolRequestsCount(init, appOnly, t);
      assert tools == init + [last];
      var asked := Request(last.safeServerName, Trim(last.toolName), FromTool(last));
      CountRequestsConcat(ToolRequests(init, appOnly), [asked], FromTool(t));
      OneRequest(asked, FromTool(t));
    }
  }

  lemma {:induction false} UtilitiesOnly(servers: seq<Server>, denied: bool)
    ensures forall r :: r in UtilityRequests(servers, denied) ==> r.origin.FromUtility?
  {
    if servers != [] {
      UtilitiesOnly(servers[..|servers| - 1], denied);
    }
  }

  lemma {:induction false} NoToolAsked(requests: seq<Request>, t: CatalogTool)
    requires forall r :: r in requests ==> !r.origin.FromTool?
    ensures CountRequests(requests, FromTool(t)) == 0
  {
    if requests != [] {
      NoToolAsked(requests[..|requests| - 1], t);
    }
  }

  lemma {:induction false} AppOnlyCount(tools: seq<CatalogTool>, t: CatalogTool)
    ensures multiset(Filter(tools, AppOnly()))[t] == if t.appOnly then multiset(tools)[t] else 0
  {
    if tools != [] {
      var init, last := tools[..|tools| - 1], tools[|tools| - 1];
      AppOnlyCount(init, t);
      assert tools == init + [last];
      FilterSnoc(init, last, AppOnly());
    }
  }

  lemma PassToolCount(c: Catalog, denied: bool, appOnly: bool, collate: Collation, t: CatalogTool)
    ensures PassCount(c, denied, appOnly, collate, FromTool(t))
         == if Wanted(t, appOnly) then multiset(PassTools(c, denied, appOnly))[t] else 0
  {
    hide Wanted, PassTools, ToolRequests, UtilityRequests;
    var servers, tools := Sort(c.servers, ServerOrder(collate)), Sort(PassTools(c, denied, appOnly), ToolOrder(collate));
    hide Sort;
    CountRequestsConcat(ToolRequests(tools, appOnly), UtilityRequests(servers, denied), FromTool(t));
    ToolRequestsCount(tools, appOnly, t);
    UtilitiesOnly(servers, denied);
    NoToolAsked(UtilityRequests(servers, denied), t);
  }

  /** How often a catalog tool is listed, for every combination of flags: a blank name never; an app-only tool as
      often as the catalog has it, with the app-only inventory alone; any other as often as it is callable, and with
      the denied inventory also as often as it is denied. */
  lemma ToolListings(c: Catalog, reserved: set<Str>, denied: bool, appOnly: bool, collate: Collation, t: CatalogTool)
    ensures var n := CountOrigin(Build(c, reserved, denied, appOnly, collate), FromTool(t));
            && (Trim(t.toolName) == [] ==> n == 0)
            && (Trim(t.toolName) != [] && t.appOnly ==> n == if appOnly then multiset(c.tools)[t] else 0)
            && (Trim(t.toolName) != [] && !t.appOnly ==>
                  n == multiset(c.tools)[t] + if denied && c.sessionDeniedTools.Some? then multiset(c.sessionDeniedTools.value)[t] else 0)
  {
    hide Build, PassCount, Trim;
    ListedExactly(c, reserved, denied, appOnly, collate, FromTool(t));
    PassToolCount(c, false, false, collate, t);
    PassToolCount(c, true, false, collate, t);
    PassToolCount(c, denied, true, collate, t);
    AppOnlyCount(c.tools, t);
  }

  // ---------------------------------------------------------------------------
  // How they are named
  // ---------------------------------------------------------------------------

  /** A name is built from the safe name of the tool's server and from the trimmed name of the tool or the name
      of the operation. */
  ghost predicate NamedAfterOrigin(server: Str, tool: Str, o: Origin) {
    match o
    case FromTool(t) => server == t.safeServerName && tool == Trim(t.toolName)
    case FromUtility(s, operation) =>
      server == (match s.safeServerName case Some(safe) => safe case None => s.serverName) && tool == operation
  }

  ghost predicate WellNamed(t: AgentTool) {
    exists server, tool, taken :: NamedAfterOrigin(server, tool, t.origin) && t.name == ToolName(server, tool, taken)
  }

  lemma {:induction false} ToolRequestsNamed(tools: seq<CatalogTool>, appOnly: bool)
    ensures forall r :: r in ToolRequests(tools, appOnly) ==> NamedAfterOrigin(r.server, r.tool, r.origin)
  {
    if tools != [] {
      ToolRequestsNamed(tools[..|tools| - 1], appOnly);
    }
  }

  lemma ServerRequestsNamed(s: Server, denied: bool)
    ensures forall r :: r in ServerRequests(s, denied) ==> NamedAfterOrigin(r.server, r.tool, r.origin)
  {
    hide AllowsUtility;
  }

  lemma {:induction false} UtilityRequestsNamed(servers: seq<Server>, denied: bool)
    ensures forall r :: r in UtilityRequests(servers, denied) ==> NamedAfterOrigin(r.server, r.tool, r.origin)
  {
    if servers != [] {
      ServerRequestsNamed(servers[|servers| - 1], denied);
      hide ServerRequests, NamedAfterOrigin;
      UtilityRequestsNamed(servers[..|servers| - 1], denied);
    }
  }

  lemma {:induction false} AllocatedNamed(requests: seq<Request>, reserved: set<Str>)
    requires forall r :: r in requests ==> NamedAfterOrigin(r.server, r.tool, r.origin)
    ensures forall t :: t in AllocateAll(requests, reserved) ==> WellNamed(t)
  {
    if requests != [] {
      hide ToolName, NamedAfterOrigin;
      AllocatedNamed(requests[..|requests| - 1], reserved);
      assert requests[|requests| - 1] in requests;
    }
  }

  /** For every catalog, reserved names and flags: the tools are listed in the order of their names, and each is
      named after its own origin, behind the safe name of its server and two underscores. */
  lemma {:induction false} NamedAndOrdered(c: Catalog, reserved: set<Str>, denied: bool, appOnly: bool, collate: Collation)
    ensures var tools := Build(c, reserved, denied, appOnly, collate);
            && (forall i, j :: 0 <= i < j < |tools| ==> collate(tools[i].name) <= collate(tools[j].name))
            && (forall t :: t in tools ==> WellNamed(t))
    decreases denied, appOnly
  {
    hide WellNamed, Taken, NormalizeReserved, AllocateAll, Sort, ToolRequests, UtilityRequests, NamedAfterOrigin;
    var base := Earlier(c, reserved, denied, appOnly, collate);
    if appOnly {
      NamedAndOrdered(c, NormalizeReserved(reserved), denied, false, collate);
    } else if denied {
      NamedAndOrdered(c, NormalizeReserved(reserved), false, appOnly, collate);
    }
    var requests := PassRequests(c, denied, appOnly, collate);
    ToolRequestsNamed(Sort(PassTools(c, denied, appOnly), ToolOrder(collate)), appOnly);
    UtilityRequestsNamed(Sort(c.servers, ServerOrder(collate)), denied);
    var taken := Taken(NormalizeReserved(reserved), base);
    AllocatedNamed(requests, taken);
    hide PassRequests;
    SortSameElements(base + AllocateAll(requests, taken), NameOrder(collate));
    BuildSorted(c, reserved, denied, appOnly, collate);
    var tools := Build(c, reserved, denied, appOnly, collate);
    hide Build;
    forall i, j | 0 <= i < j < |tools| ensures collate(tools[i].name) <= collate(tools[j].name) {
      assert NameOrder(collate)(tools[i], tools[j]);
    }
  }

  /** A listed tool's name starts with its server's and two underscores. */
  lemma NameStartsWithServer(t: AgentTool)
    requires WellNamed(t)
    ensures match t.origin
            case FromTool(x) => x.safeServerName + [95, 95] <= t.name
            case FromUtility(s, _) => (match s.safeServerName case Some(safe) => safe case None => s.serverName) + [95, 95] <= t.name
  {
    var server, tool, taken :| NamedAfterOrigin(server, tool, t.origin) && t.name == ToolName(server, tool, taken);
    ToolNameIsSafe(server, tool, taken);
  }

  function IsTool(): AgentTool -> bool {
    (t: AgentTool) => t.origin.FromTool?
  }

  lemma {:induction false} AllocateConcat(a: seq<Request>, b: seq<Request>, reserved: set<Str>)
    ensures |AllocateAll(a + b, reserved)| == |a| + |b| && AllocateAll(a + b, reserved)[..|a|] == AllocateAll(a, reserved)
  {
    if b == [] {
      assert a + b == a;
      assert AllocateAll(a, reserved)[..|a|] == AllocateAll(a, reserved);
    } else {
      hide ToolName, NormsOf;
      var init := a + b[..|b| - 1];
      assert (a + b)[..|a + b| - 1] == init;
      AllocateConcat(a, b[..|b| - 1], reserved);
      assert AllocateAll(a + b, reserved)[..|a|] == AllocateAll(init, reserved)[..|a|];
    }
  }

  lemma {:induction false} AllocatedOrigin(requests: seq<Request>, reserved: set<Str>, i: nat)
    requires i < |requests|
    ensures AllocateAll(requests, reserved)[i].origin == requests[i].origin
  {
    hide ToolName, NormsOf;
    var init := requests[..|requests| - 1];
    if i < |init| {
      AllocatedOrigin(init, reserved, i);
      assert AllocateAll(requests, reserved)[i] == AllocateAll(init, reserved)[i];
    }
  }

  lemma {:induction false} ToolsOnly(tools: seq<CatalogTool>, appOnly: bool)
    ensures forall r :: r in ToolRequests(tools, appOnly) ==> r.origin.FromTool?
  {
    if tools != [] {
      ToolsOnly(tools[..|tools| - 1], appOnly);
    }
  }

  lemma ToolsFirst(a: seq<Request>, b: seq<Request>, reserved: set<Str>)
    requires (forall r :: r in a ==> r.origin.FromTool?) && (forall r :: r in b ==> r.origin.FromUtility?)
    ensures Filter(AllocateAll(a + b, reserved), IsTool()) == AllocateAll(a, reserved)
  {
    hide AllocateAll, Filter;
    var all := AllocateAll(a + b, reserved);
    AllocateConcat(a, b, reserved);
    assert all == all[..|a|] + all[|a|..];
    FilterConcat(all[..|a|], all[|a|..], IsTool());
    forall i | 0 <= i < |a| ensures all[..|a|][i].origin.FromTool? {
      AllocatedOrigin(a + b, reserved, i);
      assert (a + b)[i] in a;
    }
    forall i | 0 <= i < |b| ensures all[|a|..][i].origin.FromUtility? {
      AllocatedOrigin(a + b, reserved, |a| + i);
      assert (a + b)[|a| + i] in b;
    }
    FilterAll(all[..|a|], IsTool());
    FilterNone(all[|a|..], IsTool());
  }

  /** The servers' utilities never take a name from a callable tool: the tools are named, and ordered, as if
      no server offered any. */
  lemma UtilitiesNeverRenameTools(c: Catalog, reserved: set<Str>, collate: Collation)
    ensures Filter(Build(c, reserved, false, false, collate), IsTool())
         == Build(c.(servers := []), reserved, false, false, collate)
  {
    hide AllocateAll, Filter, ToolRequests, UtilityRequests, Taken, NormalizeReserved, Sort;
    var taken := Taken(NormalizeReserved(reserved), []);
    var asked := ToolRequests(Sort(c.tools, ToolOrder(collate)), false);
    var utilities := UtilityRequests(Sort(c.servers, ServerOrder(collate)), false);
    ToolsOnly(Sort(c.tools, ToolOrder(collate)), false);
    UtilitiesOnly(Sort(c.servers, ServerOrder(collate)), false);
    ToolsFirst(asked, utilities, taken);
    assert TotalPreorder(NameOrder(collate));
    SortThenFilter(AllocateAll(asked + utilities, taken), IsTool(), NameOrder(collate));
    NoUtilities(collate);
    assert asked + [] == asked;
    assert [] + AllocateAll(asked, taken) == AllocateAll(asked, taken);
    assert [] + AllocateAll(asked + utilities, taken) == AllocateAll(asked + utilities, taken);
  }

  lemma NoUtilities(collate: Collation)
    ensures UtilityRequests(Sort([], ServerOrder(collate)), false) == []
  {
  }

  // ---------------------------------------------------------------------------
  // The builder
  // ---------------------------------------------------------------------------

  /** The tools so far: the earlier ones and those allocated for the requests met. */
  ghost predicate SoFar(tools: seq<AgentTool>, reserved: set<Str>, base: seq<AgentTool>, requests: seq<Request>, taken: set<Str>) {
    && tools == base + AllocateAll(requests, taken)
    && reserved == taken + NormsOf(AllocateAll(requests, taken))
  }

  method AddTool(tools: seq<AgentTool>, reserved: set<Str>, r: Request, ghost base: seq<AgentTool>, ghost requests: seq<Request>, ghost taken: set<Str>)
    returns (more: seq<AgentTool>, nowReserved: set<Str>)
    requires SoFar(tools, reserved, base, requests, taken)
    ensures SoFar(more, nowReserved, base, requests + [r], taken)
  {
    hide Norm, ToolName;
    var name := BuildSafeToolName(r.server, r.tool, reserved);
    more := tools + [AgentTool(name, r.origin)];
    nowReserved := reserved + {Norm(name)};
    var longer := requests + [r];
    assert longer[..|longer| - 1] == requests;
    ghost var before := AllocateAll(requests, taken);
    assert AllocateAll(longer, taken) == before + [AgentTool(name, r.origin)];
    assert NormsOf(before + [AgentTool(name, r.origin)]) == NormsOf(before) + {Norm(name)};
  }

  method AddUtilities(tools: seq<AgentTool>, reserved: set<Str>, s: Server, denied: bool,
                      ghost base: seq<AgentTool>, ghost requests: seq<Request>, ghost taken: set<Str>)
    returns (more: seq<AgentTool>, nowReserved: set<Str>)
    requires SoFar(tools, reserved, base, requests, taken)
    ensures SoFar(more, nowReserved, base, requests + ServerRequests(s, denied), taken)
  {
    hide SoFar;
    more, nowReserved := AddUtility(tools, reserved, s, s.resources, RESOURCES_LIST, denied, base, requests, taken);
    ghost var asked := requests + UtilityRequest(s, s.resources, RESOURCES_LIST, denied);
    more, nowReserved := AddUtility(more, nowReserved, s, s.resources, RESOURCES_READ, denied, base, asked, taken);
    asked := asked + UtilityRequest(s, s.resources, RESOURCES_READ, denied);
    more, nowReserved := AddUtility(more, nowReserved, s, s.prompts, PROMPTS_LIST, denied, base, asked, taken);
    asked := asked + UtilityRequest(s, s.prompts, PROMPTS_LIST, denied);
    more, nowReserved := AddUtility(more, nowReserved, s, s.prompts, PROMPTS_GET, denied, base, asked, taken);
    asked := asked + UtilityRequest(s, s.prompts, PROMPTS_GET, denied);
    assert asked == requests + ServerRequests(s, denied);
  }

  method AddUtility(tools: seq<AgentTool>, reserved: set<Str>, s: Server, present: bool, operation: Str, denied: bool,
                    ghost base: seq<AgentTool>, ghost requests: seq<Request>, ghost taken: set<Str>)
    returns (more: seq<AgentTool>, nowReserved: set<Str>)
    requires SoFar(tools, reserved, base, requests, taken)
    ensures SoFar(more, nowReserved, base, requests + UtilityRequest(s, present, operation, denied), taken)
  {
    hide SoFar;
    more, nowReserved := tools, reserved;
    if present && AllowsUtility(s, operation, denied) {
      var safeServerName := if s.safeServerName.Some? then s.safeServerName.value else s.serverName;
      more, nowReserved := AddTool(tools, reserved, Request(safeServerName, operation, FromUtility(s, operation)), base, requests, taken);
    } else {
      assert requests + [] == requests;
    }
  }

  method BuildBundleMcpTools(c: Catalog, reserved: set<Str>, denied: bool, appOnly: bool, collate: Collation)
    returns (tools: seq<AgentTool>)
    ensures tools == Build(c, reserved, denied, appOnly, collate)
    decreases denied, appOnly
  {
    hide Norm, AllocateAll, Sort, SoFar;
    var initial := NormalizeReserved(reserved);
    tools := [];
    if appOnly {
      tools := BuildBundleMcpTools(c, initial, denied, false, collate);
    } else if denied {
      tools := BuildBundleMcpTools(c, initial, false, appOnly, collate);
    }
    ghost var base := tools;
    assert base == Earlier(c, reserved, denied, appOnly, collate);
    var names := NormalizeReserved(initial + set t | t in tools :: t.name);
    ghost var taken := names;
    assert taken == Taken(initial, base);
    StartSoFar(base, taken);
    var sorted := Sort(PassTools(c, denied, appOnly), ToolOrder(collate));
    tools, names := AddTools(tools, names, sorted, appOnly, base, taken);
    ghost var asked := ToolRequests(sorted, appOnly);
    var servers := Sort(c.servers, ServerOrder(collate));
    tools, names := AddAllUtilities(tools, names, servers, denied, base, asked, taken);
    EndSoFar(tools, names, base, asked + UtilityRequests(servers, denied), taken);
    tools := Sort(tools, NameOrder(collate));
  }

  method AddAllUtilities(tools: seq<AgentTool>, reserved: set<Str>, servers: seq<Server>, denied: bool,
                         ghost base: seq<AgentTool>, ghost asked: seq<Request>, ghost taken: set<Str>)
    returns (more: seq<AgentTool>, nowReserved: set<Str>)
    requires SoFar(tools, reserved, base, asked, taken)
    ensures SoFar(more, nowReserved, base, asked + UtilityRequests(servers, denied), taken)
  {
    hide SoFar, ServerRequests;
    more, nowReserved := tools, reserved;
    assert asked + UtilityRequests(servers[..0], denied) == asked;
    for i := 0 to |servers|
      invariant SoFar(more, nowReserved, base, asked + UtilityRequests(servers[..i], denied), taken)
    {
      assert servers[..i + 1][..i] == servers[..i];
      more, nowReserved := AddUtilities(more, nowReserved, servers[i], denied, base, asked + UtilityRequests(servers[..i], denied), taken);
      assert asked + UtilityRequests(servers[..i], denied) + ServerRequests(servers[i], denied)
          == asked + UtilityRequests(servers[..i + 1], denied);
    }
    assert servers[..|servers|] == servers;
  }

  method AddTools(tools: seq<AgentTool>, reserved: set<Str>, sorted: seq<CatalogTool>, appOnly: bool,
                  ghost base: seq<AgentTool>, ghost taken: set<Str>)
    returns (more: seq<AgentTool>, nowReserved: set<Str>)
    requires SoFar(tools, reserved, base, [], taken)
    ensures SoFar(more, nowReserved, base, ToolRequests(sorted, appOnly), taken)
  {
    hide SoFar, Trim;
    more, nowReserved := tools, reserved;
    for i := 0 to |sorted|
      invariant SoFar(more, nowReserved, base, ToolRequests(sorted[..i], appOnly), taken)
    {
      assert sorted[..i + 1][..i] == sorted[..i];
      var t := sorted[i];
      if t.appOnly && !appOnly {
        continue;
      }
      var originalName := Trim(t.toolName);
      if originalName == [] {
        continue;
      }
      more, nowReserved := AddTool(more, nowReserved, Request(t.safeServerName, originalName, FromTool(t)), base,
                                   ToolRequests(sorted[..i], appOnly), taken);
    }
    assert sorted[..|sorted|] == sorted;
  }

  lemma StartSoFar(base: seq<AgentTool>, taken: set<Str>)
    ensures SoFar(base, taken, base, [], taken)
  {
    assert base + [] == base;
    assert NormsOf([]) == {};
  }

  lemma EndSoFar(tools: seq<AgentTool>, reserved: set<Str>, base: seq<AgentTool>, requests: seq<Request>, taken: set<Str>)
    requires SoFar(tools, reserved, base, requests, taken)
    ensures tools == base + AllocateAll(requests, taken)
  {
  }
}
