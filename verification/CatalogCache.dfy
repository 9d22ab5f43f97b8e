/** The tool catalog cache of one session MCP runtime: loads, list-changed invalidations,
    per-server retry marks and dispose, interleaved at every await. */
module CatalogCache {
  import opened Base
  import opened Sorting

  type Name = string

  /** `listedBy` is the load whose server listing produced the item. */
  datatype ServerEntry = ServerEntry(summary: string, listedBy: nat)

  datatype Tool = Tool(server: Name, name: string, listedBy: nat)

  /** `tools` are callable, `deniedTools` denied by the session, and `policyTools` everything a server
      lists. `diagnostics` maps each failed server to its message; `builtBy` is the load that assembled
      the catalog. */
  datatype Catalog = Catalog(
    servers: map<Name, ServerEntry>,
    tools: seq<Tool>,
    policyTools: seq<Tool>,
    deniedTools: seq<Tool>,
    diagnostics: map<Name, string>,
    builtBy: nat)

  /** What the tool filter and the session make of a listed tool. */
  datatype Kind = Included | Denied | Excluded

  /** How listing one server ended. */
  datatype Listing = Listed(summary: string, tools: seq<(string, Kind)>) | ListFailed(message: string)

  /** `Loaded` has settled but its starter has not resumed yet; no catalog means it threw. */
  datatype Phase = Running | Loaded(result: Option<Catalog>) | Finished(outcome: Option<Catalog>)

  /** A load remembers the generation and full invalidations seen when it began, and the catalog a retry starts from. */
  datatype Load = Load(generation: nat, epoch: nat, retryOf: Option<Catalog>, phase: Phase)

  /** `epoch` counts full invalidations; it is history, not read by any step. */
  datatype Cache = Cache(
    catalog: Option<Catalog>,
    retryAfter: Option<int>,
    inFlight: Option<nat>,
    generation: nat,
    disposed: bool,
    loads: seq<Load>,
    epoch: nat)

  const FRESH: Cache := Cache(None, None, None, 0, false, [], 0)

  const FAILURE_RETRY_MS: int := 5000

  // ---------------------------------------------------------------------------
  // Building a catalog
  // ---------------------------------------------------------------------------

  function NotFrom(names: set<Name>): Tool -> bool {
    (t: Tool) => t.server !in names
  }

  function ToolsOf(server: Name, names: seq<string>, load: nat): (tools: seq<Tool>)
    ensures |tools| == |names|
    ensures forall t :: t in tools ==> t.server == server && t.listedBy == load
  {
    if names == [] then [] else ToolsOf(server, names[..|names| - 1], load) + [Tool(server, names[|names| - 1], load)]
  }

  function NamesOf(listed: seq<(string, Kind)>, kinds: set<Kind>): seq<string> {
    if listed == [] then []
    else
      var before, last := NamesOf(listed[..|listed| - 1], kinds), listed[|listed| - 1];
      if last.1 in kinds then before + [last.0] else before
  }

  /** Policy sees the callable tools first, then the denied and then the excluded ones. */
  function PolicyNames(listed: seq<(string, Kind)>): seq<string> {
    NamesOf(listed, {Included}) + NamesOf(listed, {Denied}) + NamesOf(listed, {Excluded})
  }

  /** Adds the result of one server. */
  function AddListing(c: Catalog, server: Name, listing: Listing, load: nat): Catalog {
    match listing
    case Listed(summary, listed) =>
      c.(servers := c.servers[server := ServerEntry(summary, load)],
         tools := c.tools + ToolsOf(server, NamesOf(listed, {Included}), load),
         policyTools := c.policyTools + ToolsOf(server, PolicyNames(listed), load),
         deniedTools := c.deniedTools + ToolsOf(server, NamesOf(listed, {Denied}), load))
    case ListFailed(message) => c.(diagnostics := c.diagnostics[server := message])
  }

  function AddListings(c: Catalog, results: seq<(Name, Listing)>, load: nat): Catalog {
    if results == [] then c
    else
      var last := results[|results| - 1];
      AddListing(AddListings(c, results[..|results| - 1], load), last.0, last.1, load)
  }

  /** What a load starts from: nothing, or the retried catalog without its diagnosed servers. */
  function StartingPoint(retryOf: Option<Catalog>, load: nat): Catalog {
    if retryOf.None? then Catalog(map[], [], [], [], map[], load)
    else
      var names := retryOf.value.diagnostics.Keys;
      Catalog(retryOf.value.servers - names, Filter(retryOf.value.tools, NotFrom(names)),
              Filter(retryOf.value.policyTools, NotFrom(names)), Filter(retryOf.value.deniedTools, NotFrom(names)),
              map[], load)
  }

  /** The servers a load lists: all, or those with a diagnostic. */
  predicate Attempted(retryOf: Option<Catalog>, server: Name) {
    retryOf.Some? ==> server in retryOf.value.diagnostics
  }

  function BuildCatalog(retryOf: Option<Catalog>, results: seq<(Name, Listing)>, load: nat): Catalog {
    AddListings(StartingPoint(retryOf, load), results, load)
  }

  function From(server: Name): Tool -> bool {
    (t: Tool) => t.server == server
  }

  /** The entry and all tools of a server, callable or not, are the same in both catalogs. */
  ghost predicate SameFor(server: Name, a: Catalog, b: Catalog) {
    && (server in a.servers <==> server in b.servers)
    && (server in a.servers ==> a.servers[server] == b.servers[server])
    && Filter(a.tools, From(server)) == Filter(b.tools, From(server))
    && Filter(a.policyTools, From(server)) == Filter(b.policyTools, From(server))
    && Filter(a.deniedTools, From(server)) == Filter(b.deniedTools, From(server))
  }

  lemma OthersToolsAdded(tools: seq<Tool>, names: seq<string>, other: Name, load: nat, server: Name)
    requires other != server
    ensures Filter(tools + ToolsOf(other, names, load), From(server)) == Filter(tools, From(server))
  {
    var more := ToolsOf(other, names, load);
    FilterConcat(tools, more, From(server));
    FilterNone(more, From(server));
  }

  ghost predicate SameDiagnostic(server: Name, a: Catalog, b: Catalog) {
    && (server in a.diagnostics <==> server in b.diagnostics)
    && (server in a.diagnostics ==> a.diagnostics[server] == b.diagnostics[server])
  }

  lemma OtherListingAdded(c: Catalog, other: Name, listing: Listing, load: nat, server: Name)
    requires other != server
    ensures SameFor(server, AddListing(c, other, listing, load), c)
    ensures SameDiagnostic(server, AddListing(c, other, listing, load), c)
  {
    hide Filter, NamesOf, ToolsOf, PolicyNames;
    if listing.Listed? {
      OthersToolsAdded(c.tools, NamesOf(listing.tools, {Included}), other, load, server);
      OthersToolsAdded(c.policyTools, PolicyNames(listing.tools), other, load, server);
      OthersToolsAdded(c.deniedTools, NamesOf(listing.tools, {Denied}), other, load, server);
    }
  }

  lemma {:induction false} ListingsTouchOnlyTheirs(c: Catalog, results: seq<(Name, Listing)>, load: nat, server: Name)
    requires forall r :: r in results ==> r.0 != server
    ensures SameFor(server, AddListings(c, results, load), c)
    ensures SameDiagnostic(server, AddListings(c, results, load), c)
  {
    if results != [] {
      var last := results[|results| - 1];
      ListingsTouchOnlyTheirs(c, results[..|results| - 1], load, server);
      assert last in results;
      hide Filter, AddListing;
      OtherListingAdded(AddListings(c, results[..|results| - 1], load), last.0, last.1, load, server);
    }
  }

  // ---------------------------------------------------------------------------
  // What each server contributes
  // ---------------------------------------------------------------------------

  function OfKind(kind: Kind): ((string, Kind)) -> bool {
    (t: (string, Kind)) => t.1 == kind
  }

  /** What policy sees of a listing: the included, the denied and the excluded tools, each group in order. */
  function InGroups(listed: seq<(string, Kind)>): seq<(string, Kind)> {
    Filter(listed, OfKind(Included)) + Filter(listed, OfKind(Denied)) + Filter(listed, OfKind(Excluded))
  }

  /** The tools are the listed ones of the server, in order. */
  ghost predicate AreListed(tools: seq<Tool>, server: Name, listed: seq<(string, Kind)>, load: nat) {
    |tools| == |listed| && forall i :: 0 <= i < |tools| ==> tools[i] == Tool(server, listed[i].0, load)
  }

  ghost predicate Absent(c: Catalog, server: Name) {
    && server !in c.servers && server !in c.diagnostics
    && Filter(c.tools, From(server)) == [] && Filter(c.policyTools, From(server)) == []
    && Filter(c.deniedTools, From(server)) == []
  }

  /** What the catalog holds of a server with this result. A server that listed its tools has its entry and
      no diagnostic: its included tools are callable, its denied ones denied, and policy sees the included,
      denied and excluded ones, each group in the order listed. A server that failed has its message and
      contributes nothing else. */
  ghost predicate Contributed(c: Catalog, server: Name, listing: Listing, load: nat) {
    match listing
    case Listed(summary, listed) =>
      && server in c.servers && c.servers[server] == ServerEntry(summary, load) && server !in c.diagnostics
      && AreListed(Filter(c.tools, From(server)), server, Filter(listed, OfKind(Included)), load)
      && AreListed(Filter(c.deniedTools, From(server)), server, Filter(listed, OfKind(Denied)), load)
      && AreListed(Filter(c.policyTools, From(server)), server, InGroups(listed), load)
    case ListFailed(message) =>
      && server in c.diagnostics && c.diagnostics[server] == message && server !in c.servers
      && Filter(c.tools, From(server)) == [] && Filter(c.policyTools, From(server)) == []
      && Filter(c.deniedTools, From(server)) == []
  }

  lemma {:induction false} NamesOfKind(listed: seq<(string, Kind)>, kind: Kind)
    ensures var names, picked := NamesOf(listed, {kind}), Filter(listed, OfKind(kind));
            |names| == |picked| && forall i :: 0 <= i < |names| ==> names[i] == picked[i].0
  {
    if listed != [] {
      NamesOfKind(listed[..|listed| - 1], kind);
      assert listed[..|listed| - 1] + [listed[|listed| - 1]] == listed;
      FilterSnoc(listed[..|listed| - 1], listed[|listed| - 1], OfKind(kind));
    }
  }

  lemma {:induction false} ToolsOfNames(server: Name, names: seq<string>, load: nat)
    ensures forall i :: 0 <= i < |names| ==> ToolsOf(server, names, load)[i] == Tool(server, names[i], load)
  {
    if names != [] {
      ToolsOfNames(server, names[..|names| - 1], load);
    }
  }

  lemma OwnToolsAdded(tools: seq<Tool>, server: Name, names: seq<string>, listed: seq<(string, Kind)>, load: nat)
    requires Filter(tools, From(server)) == []
    requires |names| == |listed| && forall i :: 0 <= i < |names| ==> names[i] == listed[i].0
    ensures AreListed(Filter(tools + ToolsOf(server, names, load), From(server)), server, listed, load)
  {
    hide Filter, ToolsOf;
    ToolsOfNames(server, names, load);
    FilterConcat(tools, ToolsOf(server, names, load), From(server));
    FilterAll(ToolsOf(server, names, load), From(server));
  }

  lemma PolicyNamesInGroups(listed: seq<(string, Kind)>)
    ensures var names, groups := PolicyNames(listed), InGroups(listed);
            |names| == |groups| && forall i :: 0 <= i < |names| ==> names[i] == groups[i].0
  {
    hide Filter, NamesOf;
    NamesOfKind(listed, Included);
    NamesOfKind(listed, Denied);
    NamesOfKind(listed, Excluded);
  }

  lemma OwnListingAdded(c: Catalog, server: Name, listing: Listing, load: nat)
    requires Absent(c, server)
    ensures Contributed(AddListing(c, server, listing, load), server, listing, load)
  {
    if listing.Listed? {
      hide Filter, NamesOf, ToolsOf, PolicyNames, InGroups, AreListed, OfKind;
      var listed := listing.tools;
      NamesOfKind(listed, Included);
      NamesOfKind(listed, Denied);
      PolicyNamesInGroups(listed);
      OwnToolsAdded(c.tools, server, NamesOf(listed, {Included}), Filter(listed, OfKind(Included)), load);
      OwnToolsAdded(c.deniedTools, server, NamesOf(listed, {Denied}), Filter(listed, OfKind(Denied)), load);
      OwnToolsAdded(c.policyTools, server, PolicyNames(listed), InGroups(listed), load);
    }
  }

  ghost predicate DistinctServers(results: seq<(Name, Listing)>) {
    forall i, j :: 0 <= i < j < |results| ==> results[i].0 != results[j].0
  }

  lemma {:induction false} ListingsContribute(c: Catalog, results: seq<(Name, Listing)>, load: nat, i: nat)
    requires DistinctServers(results) && i < |results| && Absent(c, results[i].0)
    ensures Contributed(AddListings(c, results, load), results[i].0, results[i].1, load)
  {
    var before, last := results[..|results| - 1], results[|results| - 1];
    hide AddListing;
    if i == |results| - 1 {
      ListingsTouchOnlyTheirs(c, before, load, last.0);
      OwnListingAdded(AddListings(c, before, load), last.0, last.1, load);
    } else {
      ListingsContribute(c, before, load, i);
      OtherListingAdded(AddListings(c, before, load), last.0, last.1, load, results[i].0);
    }
  }

  lemma AttemptedStartAbsent(retryOf: Option<Catalog>, load: nat, server: Name)
    requires Attempted(retryOf, server)
    ensures Absent(StartingPoint(retryOf, load), server)
  {
    var start := StartingPoint(retryOf, load);
    FilterNone(start.tools, From(server));
    FilterNone(start.policyTools, From(server));
    FilterNone(start.deniedTools, From(server));
  }

  /** The catalog of a load, server by server: each listed or failed server contributes its own result, and
      an attempted server without a result is absent. A retry adds to this the healthy servers it keeps. */
  lemma CatalogHoldsResults(retryOf: Option<Catalog>, results: seq<(Name, Listing)>, load: nat)
    requires DistinctServers(results) && forall r :: r in results ==> Attempted(retryOf, r.0)
    ensures var c := BuildCatalog(retryOf, results, load);
            && (forall i :: 0 <= i < |results| ==> Contributed(c, results[i].0, results[i].1, load))
            && (forall server :: Attempted(retryOf, server) && (forall r :: r in results ==> r.0 != server) ==> Absent(c, server))
            && (forall server :: !Attempted(retryOf, server) ==> SameFor(server, retryOf.value, c) && server !in c.diagnostics)
            && c.builtBy == load
  {
    var start, c := StartingPoint(retryOf, load), BuildCatalog(retryOf, results, load);
    forall i | 0 <= i < |results| ensures Contributed(c, results[i].0, results[i].1, load) {
      assert results[i] in results;
      AttemptedStartAbsent(retryOf, load, results[i].0);
      ListingsContribute(start, results, load, i);
    }
    forall server | Attempted(retryOf, server) && (forall r :: r in results ==> r.0 != server) ensures Absent(c, server) {
      AttemptedStartAbsent(retryOf, load, server);
      ListingsTouchOnlyTheirs(start, results, load, server);
    }
    if retryOf.Some? {
      RetryKeepsHealthyServers(retryOf.value, results, load);
    }
    forall server | !Attempted(retryOf, server) ensures SameFor(server, retryOf.value, c) && server !in c.diagnostics {
      forall r | r in results ensures r.0 != server {
        assert Attempted(retryOf, r.0);
      }
      ListingsTouchOnlyTheirs(start, results, load, server);
    }
    BuiltByLoad(start, results, load);
  }

  lemma {:induction false} BuiltByLoad(c: Catalog, results: seq<(Name, Listing)>, load: nat)
    ensures AddListings(c, results, load).builtBy == c.builtBy
  {
    if results != [] {
      BuiltByLoad(c, results[..|results| - 1], load);
    }
  }

  ghost predicate KeepsHealthy(base: Catalog, next: Catalog) {
    forall server :: server !in base.diagnostics ==> SameFor(server, base, next)
  }

  lemma HealthyToolsKept(tools: seq<Tool>, names: set<Name>, server: Name)
    requires server !in names
    ensures Filter(Filter(tools, NotFrom(names)), From(server)) == Filter(tools, From(server))
  {
    var both := (t: Tool) => t.server !in names && t.server == server;
    FilterTwice(tools, NotFrom(names), From(server), both);
    FilterSame(tools, both, From(server));
  }

  /** A retry load leaves the entry of every server without a diagnostic as it was, and its tools in
      each of the three lists. */
  lemma RetryKeepsHealthyServers(base: Catalog, results: seq<(Name, Listing)>, load: nat)
    requires forall r :: r in results ==> Attempted(Some(base), r.0)
    ensures KeepsHealthy(base, BuildCatalog(Some(base), results, load))
  {
    var start, names := StartingPoint(Some(base), load), base.diagnostics.Keys;
    forall server | server !in base.diagnostics ensures SameFor(server, base, BuildCatalog(Some(base), results, load)) {
      forall r | r in results ensures r.0 != server {
        assert Attempted(Some(base), r.0);
      }
      ListingsTouchOnlyTheirs(start, results, load, server);
      HealthyToolsKept(base.tools, names, server);
      HealthyToolsKept(base.policyTools, names, server);
      HealthyToolsKept(base.deniedTools, names, server);
    }
  }

  // ---------------------------------------------------------------------------
  // Steps
  // ---------------------------------------------------------------------------

  function Invalidate(c: Cache): Cache {
    c.(generation := c.generation + 1, catalog := None, retryAfter := None, epoch := c.epoch + 1)
  }

  /** Marks one server of the cached catalog for retry; without a catalog or the server, invalidates all. */
  function ScheduleRetry(c: Cache, server: Name, message: string, now: int): Cache {
    if c.catalog.Some? && (server in c.catalog.value.diagnostics || server in c.catalog.value.servers) then
      var marked := c.catalog.value.(diagnostics := c.catalog.value.diagnostics[server := message]);
      c.(generation := c.generation + 1, catalog := Some(marked), retryAfter := Some(now))
    else Invalidate(c)
  }

  /** Begins a load unless one is in flight, which the caller then shares. */
  function BeginLoad(c: Cache, retryOf: Option<Catalog>): Cache {
    if c.inFlight.Some? then c
    else c.(loads := c.loads + [Load(c.generation, c.epoch, retryOf, Running)], inFlight := Some(|c.loads|))
  }

  predicate RetryDue(c: Cache, now: int) {
    c.retryAfter.Some? && now >= c.retryAfter.value
  }

  /** The opening stretch of a catalog request. */
  function Request(c: Cache, now: int): Cache {
    if c.catalog.None? then BeginLoad(c, None)
    else if RetryDue(c, now) then BeginLoad(c.(retryAfter := None), c.catalog)
    else c
  }

  function SettleLoad(c: Cache, l: nat, result: Option<Catalog>): Cache
    requires l < |c.loads|
  {
    c.(loads := c.loads[l := c.loads[l].(phase := Loaded(result))])
  }

  /** The load's starter resumes: caches the result unless something changed meanwhile, and
      clears the in-flight slot if it is still its own. */
  function ResumeLoad(c: Cache, l: nat, now: int): Cache
    requires l < |c.loads| && c.loads[l].phase.Loaded?
  {
    var load := c.loads[l];
    var finished := c.(loads := c.loads[l := load.(phase := Finished(load.phase.result))],
                       inFlight := if c.inFlight == Some(l) then None else c.inFlight);
    if load.phase.result.Some? && !c.disposed && c.generation == load.generation then
      finished.(catalog := load.phase.result,
                retryAfter := if load.phase.result.value.diagnostics != map[] then Some(now + FAILURE_RETRY_MS) else None)
    else finished
  }

  /** A request that retried in the background learns that the load failed. */
  function RetryRejected(c: Cache, stale: Catalog, now: int): Cache {
    if !c.disposed && c.catalog == Some(stale) && c.retryAfter.None? then
      c.(retryAfter := Some(now + FAILURE_RETRY_MS))
    else c
  }

  function DisposeCache(c: Cache): Cache {
    c.(disposed := true, catalog := None, retryAfter := None, inFlight := None)
  }

  datatype Event =
    | ListChanged
    | MarkRetry(server: Name, message: string, now: int)
    | GetCatalog(now: int)
    | LoadListed(l: nat, results: seq<(Name, Listing)>)
    | LoadThrew(l: nat)
    | Resume(l: nat, now: int)
    | Rejected(stale: Catalog, now: int)
    | Dispose

  predicate InPhase(c: Cache, l: nat, running: bool) {
    l < |c.loads| && (if running then c.loads[l].phase.Running? else c.loads[l].phase.Loaded?)
  }

  /** A load lists only the servers it attempted. A disposed runtime takes no catalog requests. */
  ghost predicate Enabled(c: Cache, e: Event) {
    match e
    case ListChanged => true
    case MarkRetry(_, _, _) => true
    case GetCatalog(_) => !c.disposed
    case LoadListed(l, results) =>
      InPhase(c, l, true) && forall r :: r in results ==> Attempted(c.loads[l].retryOf, r.0)
    case LoadThrew(l) => InPhase(c, l, true)
    case Resume(l, _) => InPhase(c, l, false)
    case Rejected(_, _) => true
    case Dispose => true
  }

  ghost function Step(c: Cache, e: Event): Cache
    requires Enabled(c, e)
  {
    match e
    case ListChanged => Invalidate(c)
    case MarkRetry(server, message, now) => ScheduleRetry(c, server, message, now)
    case GetCatalog(now) => Request(c, now)
    case LoadListed(l, results) => SettleLoad(c, l, Some(BuildCatalog(c.loads[l].retryOf, results, l)))
    case LoadThrew(l) => SettleLoad(c, l, None)
    case Resume(l, now) => ResumeLoad(c, l, now)
    case Rejected(stale, now) => RetryRejected(c, stale, now)
    case Dispose => DisposeCache(c)
  }

  // ---------------------------------------------------------------------------
  // Invariant
  // ---------------------------------------------------------------------------

  /** The catalog was built, and every item of it listed, by loads begun in the given epoch. */
  ghost predicate ListedIn(catalog: Catalog, loads: seq<Load>, epoch: nat) {
    && ByLoadOf(catalog.builtBy, loads, epoch)
    && (forall n :: n in catalog.servers ==> ByLoadOf(catalog.servers[n].listedBy, loads, epoch))
    && (forall t :: t in catalog.tools || t in catalog.policyTools || t in catalog.deniedTools ==>
          ByLoadOf(t.listedBy, loads, epoch))
  }

  ghost predicate ByLoadOf(l: nat, loads: seq<Load>, epoch: nat) {
    l < |loads| && loads[l].epoch == epoch
  }

  predicate Active(load: Load) {
    load.phase.Running? || load.phase.Loaded?
  }

  /** What the load came to, once it has settled. */
  function Outcome(load: Load): Option<Catalog> {
    match load.phase
    case Running => None
    case Loaded(result) => result
    case Finished(outcome) => outcome
  }

  ghost predicate LoadSound(c: Cache, l: nat)
    requires l < |c.loads|
  {
    var load := c.loads[l];
    && load.generation <= c.generation && load.epoch <= c.epoch
    && (load.generation == c.generation ==> load.epoch == c.epoch)
    && (load.retryOf.Some? ==> ListedIn(load.retryOf.value, c.loads, load.epoch))
    && (Outcome(load).Some? ==> ListedIn(Outcome(load).value, c.loads, load.epoch))
    && (Active(load) && !c.disposed ==> c.inFlight == Some(l))
    && (Active(load) && !c.disposed && load.generation == c.generation ==> c.catalog == load.retryOf)
    && (load.phase.Loaded? && load.phase.result.Some? && load.retryOf.Some? ==>
          KeepsHealthy(load.retryOf.value, load.phase.result.value))
  }

  ghost predicate Inv(c: Cache) {
    && (forall l: nat :: l < |c.loads| ==> LoadSound(c, l))
    && (c.inFlight.Some? ==> c.inFlight.value < |c.loads| && Active(c.loads[c.inFlight.value]))
    && (c.catalog.Some? ==> ListedIn(c.catalog.value, c.loads, c.epoch))
    && (c.disposed ==> c.catalog.None?)
    // At most one load is unfinished.
    && (forall l: nat, m: nat :: l < |c.loads| && m < |c.loads| && Active(c.loads[l]) && Active(c.loads[m]) ==> l == m)
  }

  /** Loads keep their epoch, so what was listed in an epoch stays so. */
  lemma ListedStays(catalog: Catalog, loads: seq<Load>, more: seq<Load>, epoch: nat)
    requires ListedIn(catalog, loads, epoch) && |loads| <= |more|
    requires forall l :: 0 <= l < |loads| ==> more[l].epoch == loads[l].epoch
    ensures ListedIn(catalog, more, epoch)
  {
  }

  lemma {:induction false} ListingsListedIn(c: Catalog, results: seq<(Name, Listing)>, load: nat, loads: seq<Load>, epoch: nat)
    requires ListedIn(c, loads, epoch) && ByLoadOf(load, loads, epoch)
    ensures ListedIn(AddListings(c, results, load), loads, epoch)
  {
    if results != [] {
      ListingsListedIn(c, results[..|results| - 1], load, loads, epoch);
    }
  }

  lemma BuiltListedIn(retryOf: Option<Catalog>, results: seq<(Name, Listing)>, load: nat, loads: seq<Load>, epoch: nat)
    requires retryOf.Some? ==> ListedIn(retryOf.value, loads, epoch)
    requires ByLoadOf(load, loads, epoch)
    ensures ListedIn(BuildCatalog(retryOf, results, load), loads, epoch)
  {
    ListingsListedIn(StartingPoint(retryOf, load), results, load, loads, epoch);
  }

  lemma InvalidateKeepsInv(c: Cache)
    requires Inv(c)
    ensures Inv(Invalidate(c))
  {
    var d := Invalidate(c);
    forall l: nat | l < |d.loads| ensures LoadSound(d, l) {
      assert LoadSound(c, l);
    }
  }

  lemma MarkKeepsInv(c: Cache, server: Name, message: string, now: int)
    requires Inv(c)
    ensures Inv(ScheduleRetry(c, server, message, now))
  {
    InvalidateKeepsInv(c);
    var d := ScheduleRetry(c, server, message, now);
    if d.catalog.Some? {
      forall l: nat | l < |d.loads| ensures LoadSound(d, l) {
        assert LoadSound(c, l);
      }
    }
  }

  /** Loads keep their epochs, which is all a listing depends on. */
  lemma OtherLoadKept(c: Cache, d: Cache, l: nat)
    requires l < |c.loads| && LoadSound(c, l)
    requires |d.loads| >= |c.loads| && forall m :: 0 <= m < |c.loads| ==> d.loads[m].epoch == c.loads[m].epoch
    requires d.loads[l] == c.loads[l]
    requires d.generation == c.generation && d.epoch == c.epoch && d.disposed == c.disposed
    requires !Active(c.loads[l]) || c.disposed || (d.inFlight == c.inFlight && d.catalog == c.catalog)
    ensures LoadSound(d, l)
  {
    if c.loads[l].retryOf.Some? {
      ListedStays(c.loads[l].retryOf.value, c.loads, d.loads, c.loads[l].epoch);
    }
    if Outcome(c.loads[l]).Some? {
      ListedStays(Outcome(c.loads[l]).value, c.loads, d.loads, c.loads[l].epoch);
    }
  }

  lemma BeginKeepsInv(c: Cache, retryOf: Option<Catalog>)
    requires Inv(c) && !c.disposed && retryOf == c.catalog
    ensures Inv(BeginLoad(c, retryOf))
  {
    var d := BeginLoad(c, retryOf);
    if c.inFlight.None? {
      forall l: nat | l < |c.loads| ensures !Active(c.loads[l]) && LoadSound(d, l) {
        assert LoadSound(c, l);
        OtherLoadKept(c, d, l);
      }
      if c.catalog.Some? {
        ListedStays(c.catalog.value, c.loads, d.loads, c.epoch);
      }
    }
  }

  lemma SettleKeepsInv(c: Cache, l: nat, result: Option<Catalog>)
    requires Inv(c) && InPhase(c, l, true)
    requires result.Some? ==> ListedIn(result.value, c.loads, c.loads[l].epoch)
    requires result.Some? && c.loads[l].retryOf.Some? ==> KeepsHealthy(c.loads[l].retryOf.value, result.value)
    ensures Inv(SettleLoad(c, l, result))
  {
    var d := SettleLoad(c, l, result);
    hide KeepsHealthy;
    forall m: nat | m < |d.loads| ensures LoadSound(d, m) {
      assert LoadSound(c, m);
      if m != l {
        OtherLoadKept(c, d, m);
      } else {
        if c.loads[l].retryOf.Some? {
          ListedStays(c.loads[l].retryOf.value, c.loads, d.loads, c.loads[l].epoch);
        }
        if result.Some? {
          ListedStays(result.value, c.loads, d.loads, c.loads[l].epoch);
        }
      }
    }
    if c.catalog.Some? {
      ListedStays(c.catalog.value, c.loads, d.loads, c.epoch);
    }
  }

  lemma ResumeKeepsInv(c: Cache, l: nat, now: int)
    requires Inv(c) && InPhase(c, l, false)
    ensures Inv(ResumeLoad(c, l, now))
  {
    var d := ResumeLoad(c, l, now);
    hide KeepsHealthy;
    assert LoadSound(c, l);
    forall m: nat | m < |d.loads| ensures LoadSound(d, m) {
      assert LoadSound(c, m);
      if m != l {
        assert !Active(c.loads[m]);
        OtherLoadKept(c, d, m);
      } else {
        if c.loads[l].retryOf.Some? {
          ListedStays(c.loads[l].retryOf.value, c.loads, d.loads, c.loads[l].epoch);
        }
        if Outcome(c.loads[l]).Some? {
          ListedStays(Outcome(c.loads[l]).value, c.loads, d.loads, c.loads[l].epoch);
        }
      }
    }
    if d.catalog.Some? {
      ListedStays(d.catalog.value, c.loads, d.loads, c.epoch);
    }
  }

  lemma DisposeKeepsInv(c: Cache)
    requires Inv(c)
    ensures Inv(DisposeCache(c))
  {
    var d := DisposeCache(c);
    forall l: nat | l < |d.loads| ensures LoadSound(d, l) {
      assert LoadSound(c, l);
    }
  }

  lemma StepKeepsInv(c: Cache, e: Event)
    requires Inv(c) && Enabled(c, e)
    ensures Inv(Step(c, e))
  {
    match e
    case ListChanged => InvalidateKeepsInv(c);
    case MarkRetry(server, message, now) => MarkKeepsInv(c, server, message, now);
    case GetCatalog(now) => RequestKeepsInv(c, now);
    case LoadListed(l, results) =>
      assert LoadSound(c, l);
      BuiltListedIn(c.loads[l].retryOf, results, l, c.loads, c.loads[l].epoch);
      if c.loads[l].retryOf.Some? {
        RetryKeepsHealthyServers(c.loads[l].retryOf.value, results, l);
      }
      SettleKeepsInv(c, l, Some(BuildCatalog(c.loads[l].retryOf, results, l)));
    case LoadThrew(l) => SettleKeepsInv(c, l, None);
    case Resume(l, now) => ResumeKeepsInv(c, l, now);
    case Rejected(stale, now) => RetryTimeKeepsInv(c, RetryRejected(c, stale, now).retryAfter);
    case Dispose => DisposeKeepsInv(c);
  }

  lemma RetryTimeKeepsInv(c: Cache, retryAfter: Option<int>)
    requires Inv(c)
    ensures Inv(c.(retryAfter := retryAfter))
  {
    var d := c.(retryAfter := retryAfter);
    forall l: nat | l < |d.loads| ensures LoadSound(d, l) {
      assert LoadSound(c, l);
    }
  }

  lemma RequestKeepsInv(c: Cache, now: int)
    requires Inv(c) && !c.disposed
    ensures Inv(Request(c, now))
  {
    if c.catalog.None? {
      BeginKeepsInv(c, None);
    } else if RetryDue(c, now) {
      RetryTimeKeepsInv(c, None);
      BeginKeepsInv(c.(retryAfter := None), c.catalog);
    }
  }

  // ---------------------------------------------------------------------------
  // Whole runs
  // ---------------------------------------------------------------------------

  ghost predicate CanRun(c: Cache, events: seq<Event>)
    decreases |events|
  {
    events == [] || (Enabled(c, events[0]) && CanRun(Step(c, events[0]), events[1..]))
  }

  ghost function Run(c: Cache, events: seq<Event>): Cache
    requires CanRun(c, events)
    decreases |events|
  {
    if events == [] then c else Run(Step(c, events[0]), events[1..])
  }

  ghost predicate Grows(c: Cache, d: Cache) {
    && |c.loads| <= |d.loads| && c.epoch <= d.epoch && c.generation <= d.generation
    && (forall l :: 0 <= l < |c.loads| ==> d.loads[l].epoch == c.loads[l].epoch)
    && (forall l :: 0 <= l < |c.loads| && c.loads[l].phase.Finished? ==> d.loads[l] == c.loads[l])
    && (forall l :: |c.loads| <= l < |d.loads| ==> d.loads[l].epoch >= c.epoch)
    && (c.disposed ==> d.disposed)
  }

  lemma {:induction false} RunKeepsInv(c: Cache, events: seq<Event>)
    requires Inv(c) && CanRun(c, events)
    ensures Inv(Run(c, events)) && Grows(c, Run(c, events))
    decreases |events|
  {
    if events != [] {
      StepKeepsInv(c, events[0]);
      StepGrows(c, events[0]);
      RunKeepsInv(Step(c, events[0]), events[1..]);
    }
  }

  lemma StepGrows(c: Cache, e: Event)
    requires Enabled(c, e)
    ensures Grows(c, Step(c, e))
  {
  }

  /** In every reachable state at most one load is unfinished, and before dispose it is the one in flight. */
  lemma AtMostOneLoad(events: seq<Event>, l: nat, m: nat)
    requires CanRun(FRESH, events)
    requires var c := Run(FRESH, events); l < |c.loads| && m < |c.loads| && Active(c.loads[l]) && Active(c.loads[m])
    ensures l == m
    ensures !Run(FRESH, events).disposed ==> Run(FRESH, events).inFlight == Some(l)
  {
    RunKeepsInv(FRESH, events);
    assert LoadSound(Run(FRESH, events), l);
  }

  /** Every catalog cached after a full invalidation was built by a load begun after it, and so was every listing in it. */
  lemma NothingSurvivesInvalidation(c: Cache, events: seq<Event>)
    requires Inv(c) && CanRun(Invalidate(c), events)
    ensures var d := Run(Invalidate(c), events);
            d.catalog.Some? ==>
              && d.catalog.value.builtBy >= |c.loads|
              && (forall n :: n in d.catalog.value.servers ==> d.catalog.value.servers[n].listedBy >= |c.loads|)
              && (forall t :: t in d.catalog.value.policyTools || t in d.catalog.value.tools || t in d.catalog.value.deniedTools ==>
                    t.listedBy >= |c.loads|)
  {
    InvalidateKeepsInv(c);
    RunKeepsInv(Invalidate(c), events);
    forall l: nat | l < |c.loads| ensures c.loads[l].epoch <= c.epoch {
      assert LoadSound(c, l);
    }
  }

  /** The catalog and all of its listings come from loads begun in this epoch or a later one. */
  ghost predicate SinceEpoch(catalog: Catalog, loads: seq<Load>, epoch: nat) {
    && catalog.builtBy < |loads| && loads[catalog.builtBy].epoch >= epoch
    && (forall n :: n in catalog.servers ==>
          catalog.servers[n].listedBy < |loads| && loads[catalog.servers[n].listedBy].epoch >= epoch)
    && (forall t :: t in catalog.tools || t in catalog.policyTools || t in catalog.deniedTools ==>
          t.listedBy < |loads| && loads[t.listedBy].epoch >= epoch)
  }

  /** The rest of a catalog request after its first load: the cached catalog, or a second load. */
  function Replay(c: Cache): Cache {
    if c.catalog.Some? then c else BeginLoad(c, None)
  }

  /** A request that found no catalog, joined or began a load, saw it finish, and then joined or began
      the replay load and saw that finish, answers with the catalog cached by then, else with the
      replay's. Whatever happens meanwhile, no answer predates the invalidations before the request,
      even if its first load does. */
  lemma RequestIsNeverStale(c: Cache, now: int, waiting: seq<Event>, replaying: seq<Event>)
    requires Inv(c) && !c.disposed && c.catalog.None? && CanRun(Request(c, now), waiting)
    requires var first, mid := Request(c, now).inFlight, Run(Request(c, now), waiting);
             first.Some? && first.value < |mid.loads| && mid.loads[first.value].phase.Finished? && !mid.disposed
             && CanRun(Replay(mid), replaying)
    ensures var mid := Run(Request(c, now), waiting);
            if mid.catalog.Some? then SinceEpoch(mid.catalog.value, mid.loads, c.epoch)
            else
              var second, end := Replay(mid).inFlight, Run(Replay(mid), replaying);
              && second.Some? && second != Request(c, now).inFlight && second.value < |end.loads|
              && (end.loads[second.value].phase.Finished? ==>
                    var answer := OrElse(end.catalog, end.loads[second.value].phase.outcome);
                    answer.Some? ==> SinceEpoch(answer.value, end.loads, c.epoch))
  {
    var s := Request(c, now);
    var mid := Run(s, waiting);
    RequestKeepsInv(c, now);
    RunKeepsInv(s, waiting);
    if mid.catalog.Some? {
      ListedSince(mid, mid.catalog.value, mid.epoch, c.epoch);
    } else {
      BeginKeepsInv(mid, None);
      var replay := Replay(mid);
      RunKeepsInv(replay, replaying);
      var end := Run(replay, replaying);
      var second := replay.inFlight.value;
      ReplayIsNew(c, now, waiting);
      assert LoadSound(end, second);
      if end.catalog.Some? {
        ListedSince(end, end.catalog.value, end.epoch, c.epoch);
      } else if Outcome(end.loads[second]).Some? {
        ListedSince(end, Outcome(end.loads[second]).value, end.loads[second].epoch, c.epoch);
      }
    }
  }

  /** The replay load is not the request's first one, and was begun after the request. */
  lemma ReplayIsNew(c: Cache, now: int, waiting: seq<Event>)
    requires Inv(c) && !c.disposed && c.catalog.None? && CanRun(Request(c, now), waiting)
    requires var first, mid := Request(c, now).inFlight, Run(Request(c, now), waiting);
             first.Some? && first.value < |mid.loads| && mid.loads[first.value].phase.Finished?
             && !mid.disposed && mid.catalog.None?
    ensures var second := Replay(Run(Request(c, now), waiting)).inFlight;
            && second.Some? && second != Request(c, now).inFlight
            && second.value < |Replay(Run(Request(c, now), waiting)).loads|
            && Replay(Run(Request(c, now), waiting)).loads[second.value].epoch >= c.epoch
  {
    var s := Request(c, now);
    RequestKeepsInv(c, now);
    RunKeepsInv(s, waiting);
    var mid := Run(s, waiting);
    var first := s.inFlight.value;
    forall l: nat | l < |s.loads| && l != first ensures s.loads[l].phase.Finished? {
      assert LoadSound(s, l);
    }
  }

  lemma ListedSince(c: Cache, catalog: Catalog, epoch: nat, since: nat)
    requires ListedIn(catalog, c.loads, epoch) && epoch >= since
    ensures SinceEpoch(catalog, c.loads, since)
  {
  }

  /** A retry load that reaches the cache replaces exactly the catalog it retried, and leaves healthy servers alone. */
  lemma RetryReplacesItsBase(c: Cache, l: nat, now: int)
    requires Inv(c) && InPhase(c, l, false) && c.loads[l].retryOf.Some?
    requires ResumeLoad(c, l, now).catalog != c.catalog
    ensures c.catalog == c.loads[l].retryOf
    ensures ResumeLoad(c, l, now).catalog.Some? && KeepsHealthy(c.catalog.value, ResumeLoad(c, l, now).catalog.value)
  {
    assert LoadSound(c, l);
  }

  /** A catalog just cached with failed servers is retried by the first request five seconds later
      and by none before; one without failures is never reloaded by a request. */
  lemma RetryCooldown(c: Cache, l: nat, now: int, later: int)
    requires Inv(c) && InPhase(c, l, false) && !c.disposed && c.generation == c.loads[l].generation
    requires c.loads[l].phase.result.Some?
    ensures var d, result := ResumeLoad(c, l, now), c.loads[l].phase.result;
            && d.catalog == result
            && (Request(d, later).inFlight.Some? <==> result.value.diagnostics != map[] && later >= now + 5000)
            && (Request(d, later).inFlight.Some? ==>
                  Request(d, later).loads == d.loads + [Load(d.generation, d.epoch, result, Running)])
            && Request(d, later).catalog == result
  {
    assert LoadSound(c, l);
  }

  /** A retry that failed is due again after five seconds, unless the catalog was replaced, marked again
      or dropped meanwhile. */
  lemma FailedRetryWaits(c: Cache, stale: Catalog, now: int, later: int)
    requires Inv(c) && !c.disposed && c.catalog == Some(stale) && c.inFlight.None?
    ensures var d := RetryRejected(c, stale, now);
            && d.catalog == c.catalog && d.loads == c.loads
            && (Request(d, later).inFlight.Some? <==>
                  if c.retryAfter.Some? then later >= c.retryAfter.value else later >= now + 5000)
    ensures forall other: Catalog :: other != stale ==> RetryRejected(c, other, now) == c
    ensures RetryRejected(DisposeCache(c), stale, now) == DisposeCache(c)
  {
  }

  /** A disposed runtime never caches a catalog again. */
  lemma DisposedStaysEmpty(c: Cache, events: seq<Event>)
    requires Inv(c) && CanRun(DisposeCache(c), events)
    ensures Run(DisposeCache(c), events).catalog.None?
  {
    DisposeKeepsInv(c);
    RunKeepsInv(DisposeCache(c), events);
  }

  // ---------------------------------------------------------------------------
  // The runtime object
  // ---------------------------------------------------------------------------

  class CatalogRuntime {
    var catalog: Option<Catalog>
    var retryAfter: Option<int>
    var inFlight: Option<nat>
    var generation: nat
    var disposed: bool
    var loads: seq<Load>
    var epoch: nat

    ghost function View(): Cache
      reads this
    {
      Cache(catalog, retryAfter, inFlight, generation, disposed, loads, epoch)
    }

    constructor ()
      ensures View() == FRESH && Inv(View())
    {
      catalog, retryAfter, inFlight := None, None, None;
      generation, disposed, loads, epoch := 0, false, [], 0;
    }

    method InvalidateCatalog()
      requires Inv(View())
      modifies this
      ensures View() == Invalidate(old(View())) && Inv(View())
      ensures catalog.None? && retryAfter.None? && generation == old(generation) + 1 && epoch == old(epoch) + 1
      ensures inFlight == old(inFlight) && loads == old(loads) && disposed == old(disposed)
    {
      InvalidateKeepsInv(View());
      generation := generation + 1;
      epoch := epoch + 1;
      catalog := None;
      retryAfter := None;
    }

    method ScheduleCatalogServerRetry(server: Name, message: string, now: int)
      requires Inv(View())
      modifies this
      ensures View() == ScheduleRetry(old(View()), server, message, now) && Inv(View())
      ensures generation == old(generation) + 1 && inFlight == old(inFlight) && loads == old(loads) && disposed == old(disposed)
      ensures if old(catalog).Some? && (server in old(catalog).value.diagnostics || server in old(catalog).value.servers)
              then
                && catalog == Some(old(catalog).value.(diagnostics := old(catalog).value.diagnostics[server := message]))
                && retryAfter == Some(now) && epoch == old(epoch)
              else catalog.None? && retryAfter.None? && epoch == old(epoch) + 1
    {
      MarkKeepsInv(View(), server, message, now);
      if catalog.None? {
        InvalidateCatalog();
        return;
      }
      if server !in catalog.value.diagnostics && server !in catalog.value.servers {
        InvalidateCatalog();
        return;
      }
      generation := generation + 1;
      catalog := Some(catalog.value.(diagnostics := catalog.value.diagnostics[server := message]));
      retryAfter := Some(now);
    }

    /** Up to its first await; returns the catalog at once, or the load to wait for. */
    method GetCatalog(now: int) returns (ready: Option<Catalog>, waitFor: Option<nat>)
      requires Inv(View()) && !disposed
      modifies this
      ensures View() == Request(old(View()), now) && Inv(View())
      ensures var begins := old(catalog).None? || (old(retryAfter).Some? && old(retryAfter).value <= now);
              && loads == (if begins && old(inFlight).None? then old(loads) + [Load(generation, epoch, ready, Running)] else old(loads))
              && inFlight == (if begins && old(inFlight).None? then Some(|old(loads)|) else old(inFlight))
              && retryAfter == (if begins && ready.Some? then None else old(retryAfter))
      ensures catalog == old(catalog) && generation == old(generation) && epoch == old(epoch)
      ensures ready == old(catalog)
      ensures ready.None? ==> waitFor.Some? && waitFor == inFlight
    {
      RequestKeepsInv(View(), now);
      ready, waitFor := catalog, None;
      if catalog.Some? && !(retryAfter.Some? && now >= retryAfter.value) {
        return;
      }
      if catalog.None? {
        waitFor := StartLoad(None);
        return;
      }
      retryAfter := None;
      var _ := StartLoad(ready);
    }

    /** After the first load: the catalog if one is cached, else the replay to wait for. */
    method ContinueGetCatalog() returns (ready: Option<Catalog>, waitFor: Option<nat>)
      requires Inv(View()) && !disposed
      modifies this
      ensures View() == Replay(old(View())) && Inv(View())
      ensures ready == old(catalog)
      ensures ready.None? ==> waitFor.Some? && waitFor == inFlight
    {
      ready, waitFor := catalog, None;
      if catalog.Some? {
        return;
      }
      BeginKeepsInv(View(), None);
      waitFor := StartLoad(None);
    }

    /** After the replay: the catalog cached by now, else what the replay came to. When the replay was
        begun in the epoch of the request or later, nothing in the answer predates the request. */
    method FinishGetCatalog(l: nat, ghost since: nat) returns (answer: Option<Catalog>)
      requires Inv(View()) && l < |loads| && loads[l].phase.Finished?
      requires since <= epoch && since <= loads[l].epoch
      ensures answer == OrElse(catalog, loads[l].phase.outcome)
      ensures answer.Some? ==> SinceEpoch(answer.value, loads, since)
    {
      assert LoadSound(View(), l);
      answer := if catalog.Some? then catalog else loads[l].phase.outcome;
      if answer.Some? {
        ListedSince(View(), answer.value, if catalog.Some? then epoch else loads[l].epoch, since);
      }
    }

    method StartLoad(retryOf: Option<Catalog>) returns (waitFor: Option<nat>)
      modifies this
      ensures View() == BeginLoad(old(View()), retryOf)
      ensures waitFor.Some? && waitFor == inFlight
    {
      if inFlight.None? {
        inFlight := Some(|loads|);
        loads := loads + [Load(generation, epoch, retryOf, Running)];
      }
      waitFor := inFlight;
    }

    /** The rest of the load once its promise settled. */
    method FinishLoad(l: nat, now: int)
      requires Inv(View()) && InPhase(View(), l, false)
      modifies this
      ensures View() == ResumeLoad(old(View()), l, now) && Inv(View())
      ensures var load := old(loads)[l];
              && (if load.phase.result.Some? && !old(disposed) && old(generation) == load.generation then
                    && catalog == load.phase.result
                    && retryAfter == if catalog.value.diagnostics == map[] then None else Some(now + 5000)
                  else catalog == old(catalog) && retryAfter == old(retryAfter))
              && inFlight == (if old(inFlight) == Some(l) then None else old(inFlight))
              && loads == old(loads)[l := load.(phase := Finished(load.phase.result))]
    {
      ResumeKeepsInv(View(), l, now);
      var load := loads[l];
      if load.phase.result.Some? && !disposed && generation == load.generation {
        catalog := load.phase.result;
        retryAfter := if catalog.value.diagnostics != map[] then Some(now + FAILURE_RETRY_MS) else None;
      }
      if inFlight == Some(l) {
        inFlight := None;
      }
      loads := loads[l := load.(phase := Finished(load.phase.result))];
    }

    method Dispose()
      requires Inv(View())
      modifies this
      ensures View() == DisposeCache(old(View())) && Inv(View())
      ensures disposed && catalog.None? && retryAfter.None? && inFlight.None? && loads == old(loads)
    {
      DisposeKeepsInv(View());
      disposed, catalog, retryAfter, inFlight := true, None, None, None;
    }
  }
}
