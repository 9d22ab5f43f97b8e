/** The combined session MCP runtime: merging the catalogs of its parts, the merge cached by
    source identity, the server owner map, and leases taken on every part at once. */
module CombinedRuntime {
  import opened Base
  import opened Sorting
  import opened RequesterCap
  import opened ToolNames
  import opened McpTools

  type Name = Str

  datatype Catalog = Catalog(
    generatedAt: int,
    servers: map<Name, string>,
    tools: seq<CatalogTool>,
    policyTools: Option<seq<CatalogTool>>,
    sessionDeniedTools: Option<seq<CatalogTool>>,
    diagnostics: Option<seq<string>>)

  // ---------------------------------------------------------------------------
  // Merging
  // ---------------------------------------------------------------------------

  function OrEmpty<T>(items: Option<seq<T>>): seq<T> {
    if items.Some? then items.value else []
  }

  function NonEmpty<T(==)>(items: seq<T>): Option<seq<T>> {
    if items == [] then None else Some(items)
  }

  /** What a catalog contributes to the policy tools: its own list, or everything it has. */
  function PolicyTools(c: Catalog): seq<CatalogTool> {
    if c.policyTools.Some? then c.policyTools.value else c.tools + OrEmpty(c.sessionDeniedTools)
  }

  function AllTools(cs: seq<Catalog>): seq<CatalogTool> {
    if cs == [] then [] else AllTools(cs[..|cs| - 1]) + cs[|cs| - 1].tools
  }

  function AllPolicyTools(cs: seq<Catalog>): seq<CatalogTool> {
    if cs == [] then [] else AllPolicyTools(cs[..|cs| - 1]) + PolicyTools(cs[|cs| - 1])
  }

  function AllDenied(cs: seq<Catalog>): seq<CatalogTool> {
    if cs == [] then [] else AllDenied(cs[..|cs| - 1]) + OrEmpty(cs[|cs| - 1].sessionDeniedTools)
  }

  function AllDiagnostics(cs: seq<Catalog>): seq<string> {
    if cs == [] then [] else AllDiagnostics(cs[..|cs| - 1]) + OrEmpty(cs[|cs| - 1].diagnostics)
  }

  function AllServers(cs: seq<Catalog>): map<Name, string> {
    if cs == [] then map[] else AllServers(cs[..|cs| - 1]) + cs[|cs| - 1].servers
  }

  function Newest(cs: seq<Catalog>): int {
    if cs == [] then 0
    else
      var before := Newest(cs[..|cs| - 1]);
      if cs[|cs| - 1].generatedAt > before then cs[|cs| - 1].generatedAt else before
  }

  function MergeCatalogs(cs: seq<Catalog>, collate: Collation): Catalog {
    var order := ToolOrder(collate);
    Catalog(
      Newest(cs),
      AllServers(cs),
      Sort(AllTools(cs), order),
      NonEmpty(Sort(AllPolicyTools(cs), order)),
      NonEmpty(Sort(AllDenied(cs), order)),
      NonEmpty(AllDiagnostics(cs)))
  }

  lemma OneMoreMerged(cs: seq<Catalog>, i: nat)
    requires i < |cs|
    ensures AllServers(cs[..i + 1]) == AllServers(cs[..i]) + cs[i].servers
    ensures AllTools(cs[..i + 1]) == AllTools(cs[..i]) + cs[i].tools
    ensures AllPolicyTools(cs[..i + 1]) == AllPolicyTools(cs[..i]) + PolicyTools(cs[i])
    ensures AllDenied(cs[..i + 1]) == AllDenied(cs[..i]) + OrEmpty(cs[i].sessionDeniedTools)
    ensures AllDiagnostics(cs[..i + 1]) == AllDiagnostics(cs[..i]) + OrEmpty(cs[i].diagnostics)
    ensures Newest(cs[..i + 1]) == if cs[i].generatedAt > Newest(cs[..i]) then cs[i].generatedAt else Newest(cs[..i])
  {
    hide PolicyTools, OrEmpty;
    assert cs[..i + 1][..i] == cs[..i];
  }

  lemma NothingMerged(cs: seq<Catalog>)
    ensures AllServers(cs[..0]) == map[] && AllTools(cs[..0]) == [] && AllPolicyTools(cs[..0]) == []
    ensures AllDenied(cs[..0]) == [] && AllDiagnostics(cs[..0]) == [] && Newest(cs[..0]) == 0
  {
  }

  /** Merges in one pass over the catalogs, then sorts. */
  method MergeMcpToolCatalogs(cs: seq<Catalog>, collate: Collation) returns (merged: Catalog)
    ensures merged == MergeCatalogs(cs, collate)
  {
    NothingMerged(cs);
    hide Sort, ToolOrder, AllServers, AllTools, AllPolicyTools, AllDenied, AllDiagnostics, Newest;
    var servers: map<Name, string> := map[];
    var tools: seq<CatalogTool>, policyTools: seq<CatalogTool>, denied: seq<CatalogTool> := [], [], [];
    var diagnostics: seq<string> := [];
    var newest := 0;
    for i := 0 to |cs|
      invariant servers == AllServers(cs[..i]) && tools == AllTools(cs[..i])
      invariant policyTools == AllPolicyTools(cs[..i]) && denied == AllDenied(cs[..i])
      invariant diagnostics == AllDiagnostics(cs[..i]) && newest == Newest(cs[..i])
    {
      OneMoreMerged(cs, i);
      var c := cs[i];
      servers := servers + c.servers;
      tools := tools + c.tools;
      policyTools := policyTools + (if c.policyTools.Some? then c.policyTools.value else c.tools + OrEmpty(c.sessionDeniedTools));
      if c.sessionDeniedTools.Some? {
        denied := denied + c.sessionDeniedTools.value;
      }
      if c.diagnostics.Some? {
        diagnostics := diagnostics + c.diagnostics.value;
      }
      if c.generatedAt > newest {
        newest := c.generatedAt;
      }
    }
    assert cs[..|cs|] == cs;
    var order := ToolOrder(collate);
    merged := Catalog(newest, servers, Sort(tools, order), NonEmpty(Sort(policyTools, order)),
                      NonEmpty(Sort(denied, order)), NonEmpty(diagnostics));
  }

  /** How often a tool is listed by the catalogs together. */
  function Listings(cs: seq<Catalog>, t: CatalogTool): nat {
    if cs == [] then 0 else Listings(cs[..|cs| - 1], t) + multiset(cs[|cs| - 1].tools)[t]
  }

  lemma {:induction false} AllToolsCount(cs: seq<Catalog>, t: CatalogTool)
    ensures multiset(AllTools(cs))[t] == Listings(cs, t)
  {
    if cs != [] {
      AllToolsCount(cs[..|cs| - 1], t);
    }
  }

  /** The merged tools are in listing order, and every tool occurs as often as the parts list it together. */
  lemma MergedTools(cs: seq<Catalog>, collate: Collation)
    ensures Collated(MergeCatalogs(cs, collate).tools, collate)
    ensures forall t :: multiset(MergeCatalogs(cs, collate).tools)[t] == Listings(cs, t)
  {
    SortedIsCollated(AllTools(cs), collate);
    forall t ensures multiset(MergeCatalogs(cs, collate).tools)[t] == Listings(cs, t) {
      AllToolsCount(cs, t);
    }
  }

  lemma {:induction false} AllPolicyToolsSplit(cs: seq<Catalog>)
    requires forall c :: c in cs ==> c.policyTools.None?
    ensures multiset(AllPolicyTools(cs)) == multiset(AllTools(cs)) + multiset(AllDenied(cs))
  {
    if cs != [] {
      AllPolicyToolsSplit(cs[..|cs| - 1]);
      assert cs[|cs| - 1] in cs;
    }
  }

  /** When no part keeps a policy list of its own, the merged policy list is exactly the merged
      callable tools and the merged denied tools together. */
  lemma MergedPolicy(cs: seq<Catalog>, collate: Collation)
    requires forall c :: c in cs ==> c.policyTools.None?
    ensures var m := MergeCatalogs(cs, collate);
            multiset(OrEmpty(m.policyTools)) == multiset(m.tools) + multiset(OrEmpty(m.sessionDeniedTools))
  {
    hide Sort;
    AllPolicyToolsSplit(cs);
    var order := ToolOrder(collate);
    assert OrEmpty(NonEmpty(Sort(AllPolicyTools(cs), order))) == Sort(AllPolicyTools(cs), order);
    assert OrEmpty(NonEmpty(Sort(AllDenied(cs), order))) == Sort(AllDenied(cs), order);
  }

  /** How often the parts name a tool to policy: in their policy list, or else callable or denied. */
  function PolicyListings(cs: seq<Catalog>, t: CatalogTool): nat {
    if cs == [] then 0
    else
      var c := cs[|cs| - 1];
      PolicyListings(cs[..|cs| - 1], t) +
      match c.policyTools
      case Some(own) => multiset(own)[t]
      case None => multiset(c.tools)[t] + (if c.sessionDeniedTools.Some? then multiset(c.sessionDeniedTools.value)[t] else 0)
  }

  function DeniedListings(cs: seq<Catalog>, t: CatalogTool): nat {
    if cs == [] then 0
    else
      var c := cs[|cs| - 1];
      DeniedListings(cs[..|cs| - 1], t) + if c.sessionDeniedTools.Some? then multiset(c.sessionDeniedTools.value)[t] else 0
  }

  lemma {:induction false} OtherListsCount(cs: seq<Catalog>, t: CatalogTool)
    ensures multiset(AllPolicyTools(cs))[t] == PolicyListings(cs, t)
    ensures multiset(AllDenied(cs))[t] == DeniedListings(cs, t)
  {
    if cs != [] {
      OtherListsCount(cs[..|cs| - 1], t);
    }
  }

  /** A list is merged as the tools are, and is left out when no part adds to it. */
  ghost predicate MergedList(merged: Option<seq<CatalogTool>>, count: CatalogTool -> nat, collate: Collation) {
    if merged.None? then forall t :: count(t) == 0
    else merged.value != [] && Collated(merged.value, collate) && forall t :: multiset(merged.value)[t] == count(t)
  }

  /** The other two lists are merged in the same way: every tool occurs as often as the parts name it. */
  lemma MergedOtherLists(cs: seq<Catalog>, collate: Collation)
    ensures MergedList(MergeCatalogs(cs, collate).policyTools, t => PolicyListings(cs, t), collate)
    ensures MergedList(MergeCatalogs(cs, collate).sessionDeniedTools, t => DeniedListings(cs, t), collate)
  {
    SortedIsCollated(AllPolicyTools(cs), collate);
    SortedIsCollated(AllDenied(cs), collate);
    hide Sort, Collated, AllPolicyTools, AllDenied;
    var policy, denied := Sort(AllPolicyTools(cs), ToolOrder(collate)), Sort(AllDenied(cs), ToolOrder(collate));
    forall t ensures multiset(policy)[t] == PolicyListings(cs, t) && multiset(denied)[t] == DeniedListings(cs, t) {
      OtherListsCount(cs, t);
    }
    assert policy == [] ==> multiset(policy) == multiset{};
    assert denied == [] ==> multiset(denied) == multiset{};
  }

  lemma {:induction false} DiagnosticsConcat(xs: seq<Catalog>, ys: seq<Catalog>)
    ensures AllDiagnostics(xs + ys) == AllDiagnostics(xs) + AllDiagnostics(ys)
  {
    if ys == [] {
      assert xs + ys == xs;
    } else {
      assert (xs + ys)[..|xs + ys| - 1] == xs + ys[..|ys| - 1];
      DiagnosticsConcat(xs, ys[..|ys| - 1]);
    }
  }

  function Joined(x: Option<seq<string>>, y: Option<seq<string>>): Option<seq<string>> {
    if x.None? then y else if y.None? then x else Some(x.value + y.value)
  }

  lemma JoinedIsConcat(x: seq<string>, y: seq<string>)
    ensures NonEmpty(x + y) == Joined(NonEmpty(x), NonEmpty(y))
  {
    assert x == [] ==> x + y == y;
    assert y == [] ==> x + y == x;
  }

  /** The failed servers of a merge are those of its parts, in order: one part's are its own, and those of more
      parts follow each other. There are none exactly when no part has any. */
  lemma MergedDiagnostics(xs: seq<Catalog>, ys: seq<Catalog>, collate: Collation)
    ensures MergeCatalogs(xs + ys, collate).diagnostics
         == Joined(MergeCatalogs(xs, collate).diagnostics, MergeCatalogs(ys, collate).diagnostics)
    ensures MergeCatalogs(xs, collate).diagnostics.None? <==>
            forall i :: 0 <= i < |xs| ==> xs[i].diagnostics.None? || xs[i].diagnostics.value == []
    ensures |xs| == 1 ==> MergeCatalogs(xs, collate).diagnostics ==
                          if xs[0].diagnostics == Some([]) then None else xs[0].diagnostics
  {
    hide MergeCatalogs, AllDiagnostics, Joined;
    DiagnosticsConcat(xs, ys);
    JoinedIsConcat(AllDiagnostics(xs), AllDiagnostics(ys));
    DiagnosticsMerged(xs + ys, collate);
    DiagnosticsMerged(ys, collate);
    DiagnosticsMerged(xs, collate);
    NoDiagnostics(xs);
    if |xs| == 1 {
      OneDiagnostics(xs);
    }
  }

  lemma OneDiagnostics(xs: seq<Catalog>)
    requires |xs| == 1
    ensures AllDiagnostics(xs) == OrEmpty(xs[0].diagnostics)
  {
    assert xs[..0] == [];
  }

  lemma DiagnosticsMerged(cs: seq<Catalog>, collate: Collation)
    ensures MergeCatalogs(cs, collate).diagnostics == NonEmpty(AllDiagnostics(cs))
  {
    hide Sort, AllTools, AllPolicyTools, AllDenied, AllServers, AllDiagnostics, Newest, NonEmpty;
  }

  lemma {:induction false} NoDiagnostics(cs: seq<Catalog>)
    ensures AllDiagnostics(cs) == [] <==> forall i :: 0 <= i < |cs| ==> cs[i].diagnostics.None? || cs[i].diagnostics.value == []
  {
    if cs != [] {
      NoDiagnostics(cs[..|cs| - 1]);
      assert forall i :: 0 <= i < |cs| - 1 ==> cs[..|cs| - 1][i] == cs[i];
    }
  }

  /** The merged timestamp is the latest of the parts', and never negative. */
  lemma {:induction false} NewestIsMaximum(cs: seq<Catalog>)
    ensures Newest(cs) >= 0 && forall c :: c in cs ==> c.generatedAt <= Newest(cs)
    ensures Newest(cs) == 0 || exists c :: c in cs && c.generatedAt == Newest(cs)
  {
    if cs != [] {
      var init, last := cs[..|cs| - 1], cs[|cs| - 1];
      NewestIsMaximum(init);
      assert last in cs && forall c :: c in init ==> c in cs;
    }
  }

  /** A server's entry comes from the last catalog that has it. */
  ghost predicate LastWith(cs: seq<Catalog>, n: Name, i: int) {
    && 0 <= i < |cs| && n in cs[i].servers
    && forall j :: i < j < |cs| ==> n !in cs[j].servers
  }

  lemma {:induction false} ServersFromLast(cs: seq<Catalog>, n: Name) returns (i: int)
    ensures n in AllServers(cs) <==> LastWith(cs, n, i)
    ensures n in AllServers(cs) ==> AllServers(cs)[n] == cs[i].servers[n]
    ensures n !in AllServers(cs) ==> forall j :: 0 <= j < |cs| ==> n !in cs[j].servers
  {
    if cs == [] {
      i := 0;
    } else if n in cs[|cs| - 1].servers {
      i := |cs| - 1;
    } else {
      i := ServersFromLast(cs[..|cs| - 1], n);
    }
  }

  // ---------------------------------------------------------------------------
  // The facade
  // ---------------------------------------------------------------------------

  /** Catalog objects by identity; an object never changes once made. `peeks` is what each part
      currently has cached. */
  datatype Parts = Parts(objects: seq<Catalog>, peeks: seq<Option<nat>>)

  /** The load requests share. `Done` has its answer, or none if it failed, but has not left the slot yet. */
  datatype Flight = Idle | Waiting(load: nat) | Done(load: nat, answer: Option<Catalog>)

  /** `sources` are the identities that were merged; `owner` is the part serving each server.
      `started` and `ended` count loads; they are history. */
  datatype Facade = Facade(
    cached: Option<Catalog>,
    sources: Option<seq<nat>>,
    owner: map<Name, nat>,
    flight: Flight,
    started: nat,
    ended: nat)

  const FRESH: Facade := Facade(None, None, map[], Idle, 0, 0)

  predicate Known(p: Parts, ids: seq<nat>) {
    |ids| == |p.peeks| && forall i :: 0 <= i < |ids| ==> ids[i] < |p.objects|
  }

  predicate WellFormed(p: Parts) {
    forall i :: 0 <= i < |p.peeks| && p.peeks[i].Some? ==> p.peeks[i].value < |p.objects|
  }

  function Contents(p: Parts, ids: seq<nat>): (cs: seq<Catalog>)
    requires forall i :: 0 <= i < |ids| ==> ids[i] < |p.objects|
    ensures |cs| == |ids| && forall i :: 0 <= i < |cs| ==> cs[i] == p.objects[ids[i]]
  {
    seq(|ids|, i requires 0 <= i < |ids| => p.objects[ids[i]])
  }

  function ServedBy(c: Catalog, part: nat): map<Name, nat> {
    map n | n in c.servers :: part
  }

  function OwnersOf(cs: seq<Catalog>): map<Name, nat> {
    if cs == [] then map[] else OwnersOf(cs[..|cs| - 1]) + ServedBy(cs[|cs| - 1], |cs| - 1)
  }

  predicate Current(p: Parts, f: Facade) {
    && f.cached.Some? && f.sources.Some? && |f.sources.value| == |p.peeks|
    && forall i :: 0 <= i < |p.peeks| ==> p.peeks[i] == Some(f.sources.value[i])
  }

  predicate AllPresent(p: Parts) {
    forall i :: 0 <= i < |p.peeks| ==> p.peeks[i].Some?
  }

  function PeekedIds(p: Parts): (ids: seq<nat>)
    requires AllPresent(p)
    ensures |ids| == |p.peeks| && forall i :: 0 <= i < |ids| ==> p.peeks[i] == Some(ids[i])
  {
    seq(|p.peeks|, i requires 0 <= i < |p.peeks| => p.peeks[i].value)
  }

  /** Plain re-merging of what the parts have now: the meaning of a peek. */
  function Remerged(p: Parts, collate: Collation): Option<Catalog>
    requires WellFormed(p)
  {
    if AllPresent(p) then Some(MergeCatalogs(Contents(p, PeekedIds(p)), collate)) else None
  }

  /** A request may answer from the cache: no failed servers, and the sources are current. */
  predicate AnswersAtOnce(p: Parts, f: Facade) {
    Current(p, f) && OrEmpty(f.cached.value.diagnostics) == []
  }

  /** A catalog request: answered at once, sharing the load in flight, or starting one. */
  function Request(p: Parts, f: Facade): Facade {
    if AnswersAtOnce(p, f) || !f.flight.Idle? then f
    else f.(flight := Waiting(f.started), started := f.started + 1)
  }

  /** The part catalogs of the load in flight have arrived. */
  function LoadArrived(p: Parts, f: Facade, ids: seq<nat>, collate: Collation): Facade
    requires Known(p, ids) && f.flight.Waiting?
  {
    var merged := if f.cached.Some? && f.sources == Some(ids) then f
                  else f.(cached := Some(MergeCatalogs(Contents(p, ids), collate)), sources := Some(ids), owner := OwnersOf(Contents(p, ids)));
    merged.(flight := Done(f.flight.load, merged.cached))
  }

  /** Parts make new catalog objects and change what they have cached on their own; a load's catalogs
      are ones the parts had at some time. */
  datatype Event =
    | NewObject(content: Catalog)
    | PartNow(part: nat, cached: Option<nat>)
    | GetCatalog
    | Arrived(ids: seq<nat>)
    | PartFailed
    | LeaveSlot

  predicate Enabled(p: Parts, f: Facade, e: Event) {
    match e
    case NewObject(_) => true
    case PartNow(part, cached) => part < |p.peeks| && (cached.Some? ==> cached.value < |p.objects|)
    case GetCatalog => true
    case Arrived(ids) => Known(p, ids) && f.flight.Waiting?
    case PartFailed => f.flight.Waiting?
    case LeaveSlot => f.flight.Done?
  }

  function StepParts(p: Parts, e: Event): Parts
    requires e.PartNow? ==> e.part < |p.peeks|
  {
    match e
    case NewObject(content) => p.(objects := p.objects + [content])
    case PartNow(part, cached) => p.(peeks := p.peeks[part := cached])
    case _ => p
  }

  function StepFacade(p: Parts, f: Facade, e: Event, collate: Collation): Facade
    requires Enabled(p, f, e)
  {
    match e
    case GetCatalog => Request(p, f)
    case Arrived(ids) => LoadArrived(p, f, ids, collate)
    case PartFailed => f.(flight := Done(f.flight.load, None))
    case LeaveSlot => f.(flight := Idle, ended := f.ended + 1)
    case _ => f
  }

  predicate CanRun(p: Parts, f: Facade, events: seq<Event>, collate: Collation)
    decreases |events|
  {
    events == []
    || (Enabled(p, f, events[0])
        && CanRun(StepParts(p, events[0]), StepFacade(p, f, events[0], collate), events[1..], collate))
  }

  function Run(p: Parts, f: Facade, events: seq<Event>, collate: Collation): (Parts, Facade)
    requires CanRun(p, f, events, collate)
    decreases |events|
  {
    if events == [] then (p, f)
    else Run(StepParts(p, events[0]), StepFacade(p, f, events[0], collate), events[1..], collate)
  }

  /** The cache holds the merge of the sources it names, and the owners are theirs. */
  ghost predicate Inv(p: Parts, f: Facade, collate: Collation) {
    && WellFormed(p)
    && (f.cached.Some? <==> f.sources.Some?)
    && (f.sources.None? ==> f.owner == map[])
    && (f.sources.Some? ==>
          && Known(p, f.sources.value)
          && f.cached.value == MergeCatalogs(Contents(p, f.sources.value), collate)
          && f.owner == OwnersOf(Contents(p, f.sources.value)))
    && f.started == f.ended + (if f.flight.Idle? then 0 else 1)
    && (f.flight.Waiting? || f.flight.Done? ==> f.flight.load + 1 == f.started)
  }

  lemma StepKeepsInv(p: Parts, f: Facade, e: Event, collate: Collation)
    requires Inv(p, f, collate) && Enabled(p, f, e)
    ensures Inv(StepParts(p, e), StepFacade(p, f, e, collate), collate)
  {
    hide MergeCatalogs, OwnersOf;
    var q, g := StepParts(p, e), StepFacade(p, f, e, collate);
    if g.sources.Some? {
      assert Contents(q, g.sources.value) == Contents(p, g.sources.value);
    }
  }

  lemma {:induction false} RunKeepsInv(p: Parts, f: Facade, events: seq<Event>, collate: Collation)
    requires Inv(p, f, collate) && CanRun(p, f, events, collate)
    ensures Inv(Run(p, f, events, collate).0, Run(p, f, events, collate).1, collate)
    decreases |events|
  {
    if events != [] {
      StepKeepsInv(p, f, events[0], collate);
      RunKeepsInv(StepParts(p, events[0]), StepFacade(p, f, events[0], collate), events[1..], collate);
    }
  }

  /** However requests, loads and the parts interleave, at most one load is under way. */
  lemma LoadsAreShared(p: Parts, events: seq<Event>, collate: Collation)
    requires WellFormed(p) && CanRun(p, FRESH, events, collate)
    ensures var f := Run(p, FRESH, events, collate).1;
            f.ended <= f.started <= f.ended + 1 && (f.started == f.ended <==> f.flight.Idle?)
  {
    RunKeepsInv(p, FRESH, events, collate);
  }

  /** What a peek answers: the cache when its sources are still the parts' catalogs, else a new merge. */
  function Peek(p: Parts, f: Facade, collate: Collation): Option<Catalog>
    requires WellFormed(p)
  {
    if Current(p, f) then f.cached
    else if !AllPresent(p) then None
    else Some(MergeCatalogs(Contents(p, PeekedIds(p)), collate))
  }

  lemma PeekRefinesRemerge(p: Parts, f: Facade, collate: Collation)
    requires Inv(p, f, collate)
    ensures Peek(p, f, collate) == Remerged(p, collate)
  {
    if Current(p, f) {
      assert PeekedIds(p) == f.sources.value;
    }
  }

  /** Whatever the parts and the loads do, a peek is the merge of the parts' catalogs of that
      moment, and is absent exactly when some part has none. */
  lemma PeekIsAlwaysFresh(p: Parts, events: seq<Event>, collate: Collation)
    requires WellFormed(p) && CanRun(p, FRESH, events, collate)
    ensures var (q, f) := Run(p, FRESH, events, collate);
            WellFormed(q) && Peek(q, f, collate) == Remerged(q, collate)
  {
    RunKeepsInv(p, FRESH, events, collate);
    PeekRefinesRemerge(Run(p, FRESH, events, collate).0, Run(p, FRESH, events, collate).1, collate);
  }

  /** A load answers with the merge of the catalogs it awaited, whether or not it reuses the cache. */
  lemma LoadAnswersItsCatalogs(p: Parts, f: Facade, ids: seq<nat>, collate: Collation)
    requires Inv(p, f, collate) && Known(p, ids) && f.flight.Waiting?
    ensures LoadArrived(p, f, ids, collate).flight == Done(f.flight.load, Some(MergeCatalogs(Contents(p, ids), collate)))
  {
  }

  /** A request answered at once gets the merge of the parts' catalogs of that moment. */
  lemma AnswerAtOnceIsFresh(p: Parts, f: Facade, collate: Collation)
    requires Inv(p, f, collate) && AnswersAtOnce(p, f)
    ensures f.cached.Some? && f.cached == Remerged(p, collate)
  {
    PeekRefinesRemerge(p, f, collate);
  }

  /** And none of these catalogs has a failed server. */
  lemma AnswerAtOnceIsHealthy(p: Parts, f: Facade, collate: Collation, i: nat)
    requires Inv(p, f, collate) && AnswersAtOnce(p, f) && i < |p.peeks|
    ensures p.peeks[i].Some? && OrEmpty(p.objects[p.peeks[i].value].diagnostics) == []
  {
    hide MergeCatalogs, OwnersOf, AllDiagnostics;
    var cs := Contents(p, f.sources.value);
    NoDiagnostics(cs);
    DiagnosticsMerged(cs, collate);
    assert cs[i] == p.objects[p.peeks[i].value];
  }

  lemma {:induction false} OwnerIsLast(cs: seq<Catalog>, n: Name)
    ensures n in OwnersOf(cs) <==> n in AllServers(cs)
    ensures n in OwnersOf(cs) ==> LastWith(cs, n, OwnersOf(cs)[n]) && cs[OwnersOf(cs)[n]].servers[n] == AllServers(cs)[n]
  {
    if cs != [] && n !in cs[|cs| - 1].servers {
      OwnerIsLast(cs[..|cs| - 1], n);
    }
  }

  /** In every reachable state the owner map routes exactly the servers of the cached catalog,
      each to the part whose entry the catalog shows. */
  lemma OwnersAgreeWithCatalog(p: Parts, events: seq<Event>, collate: Collation, n: Name)
    requires WellFormed(p) && CanRun(p, FRESH, events, collate)
    ensures var (q, f) := Run(p, FRESH, events, collate);
            && (n in f.owner <==> f.cached.Some? && n in f.cached.value.servers)
            && (n in f.owner ==>
                  && f.sources.Some? && Known(q, f.sources.value)
                  && LastWith(Contents(q, f.sources.value), n, f.owner[n])
                  && q.objects[f.sources.value[f.owner[n]]].servers[n] == f.cached.value.servers[n])
  {
    var q, f := Run(p, FRESH, events, collate).0, Run(p, FRESH, events, collate).1;
    RunKeepsInv(p, FRESH, events, collate);
    if f.sources.Some? {
      OwnerIsLast(Contents(q, f.sources.value), n);
    }
  }

  /** The facade object; the parts are what its calls see at that moment. */
  class Combined {
    var cachedCatalog: Option<Catalog>
    var mergedSources: Option<seq<nat>>
    var serverOwner: map<Name, nat>
    var flight: Flight
    var started: nat
    ghost var ended: nat
    const collate: Collation

    ghost function View(): Facade
      reads this
    {
      Facade(cachedCatalog, mergedSources, serverOwner, flight, started, ended)
    }

    constructor (collate: Collation)
      ensures View() == FRESH && this.collate == collate
    {
      cachedCatalog, mergedSources, serverOwner := None, None, map[];
      flight, started, ended := Idle, 0, 0;
      this.collate := collate;
    }

    /** Answers from the cache, or names the load to wait for, an earlier request's or a new one. */
    method GetCatalog(p: Parts) returns (ready: Option<Catalog>, waitFor: Option<nat>)
      requires Inv(p, View(), collate)
      modifies this
      ensures View() == Request(p, old(View())) && Inv(p, View(), collate)
      ensures ready.Some? <==> AnswersAtOnce(p, old(View()))
      ensures ready.Some? <==>
                && old(cachedCatalog).Some? && old(mergedSources).Some?
                && (old(cachedCatalog).value.diagnostics.None? || old(cachedCatalog).value.diagnostics.value == [])
                && forall i :: 0 <= i < |p.peeks| ==> p.peeks[i] == Some(old(mergedSources).value[i])
      ensures ready.Some? ==> ready == Remerged(p, collate)
      ensures if ready.Some? || !old(flight).Idle? then flight == old(flight) && started == old(started)
              else flight == Waiting(old(started)) && started == old(started) + 1
      ensures cachedCatalog == old(cachedCatalog) && mergedSources == old(mergedSources) && serverOwner == old(serverOwner)
      ensures ready.None? ==> !flight.Idle? && waitFor == Some(flight.load)
    {
      hide MergeCatalogs, OwnersOf;
      StepKeepsInv(p, View(), Event.GetCatalog, collate);
      var current := CachedCatalogIsCurrent(p);
      if current && OrEmpty(cachedCatalog.value.diagnostics) == [] {
        AnswerAtOnceIsFresh(p, View(), collate);
        return cachedCatalog, None;
      }
      if flight.Idle? {
        flight := Waiting(started);
        started := started + 1;
      }
      return None, Some(flight.load);
    }

    method ClearInFlight()
      requires flight.Done?
      modifies this
      ensures View() == old(View()).(flight := Idle, ended := old(ended) + 1)
    {
      flight := Idle;
      ended := ended + 1;
    }

    method CachedCatalogIsCurrent(p: Parts) returns (current: bool)
      requires mergedSources.Some? ==> |mergedSources.value| == |p.peeks|
      ensures current == Current(p, View())
    {
      if cachedCatalog.None? || mergedSources.None? {
        return false;
      }
      for i := 0 to |p.peeks|
        invariant forall j :: 0 <= j < i ==> p.peeks[j] == Some(mergedSources.value[j])
      {
        if p.peeks[i] != Some(mergedSources.value[i]) {
          return false;
        }
      }
      return true;
    }

    method PeekCatalog(p: Parts) returns (peeked: Option<Catalog>)
      requires Inv(p, View(), collate)
      ensures peeked == Remerged(p, collate)
    {
      hide MergeCatalogs, OwnersOf;
      PeekRefinesRemerge(p, View(), collate);
      var current := CachedCatalogIsCurrent(p);
      if current {
        return cachedCatalog;
      }
      if exists i :: 0 <= i < |p.peeks| && p.peeks[i].None? {
        return None;
      }
      var merged := MergeMcpToolCatalogs(Contents(p, PeekedIds(p)), collate);
      return Some(merged);
    }

    /** Later parts override earlier ones. */
    method RememberServerOwners(cs: seq<Catalog>)
      modifies this`serverOwner
      ensures serverOwner == OwnersOf(cs)
    {
      serverOwner := map[];
      for i := 0 to |cs|
        invariant serverOwner == OwnersOf(cs[..i])
      {
        assert cs[..i + 1][..i] == cs[..i];
        serverOwner := serverOwner + ServedBy(cs[i], i);
      }
      assert cs[..|cs|] == cs;
    }

    method FinishLoad(p: Parts, ids: seq<nat>) returns (answer: Catalog)
      requires Inv(p, View(), collate) && Known(p, ids) && flight.Waiting?
      modifies this
      ensures View() == LoadArrived(p, old(View()), ids, collate) && Inv(p, View(), collate)
      ensures answer == MergeCatalogs(Contents(p, ids), collate)
      ensures cachedCatalog == Some(answer) && mergedSources == Some(ids) && flight == Done(old(flight).load, Some(answer))
    {
      hide MergeCatalogs;
      StepKeepsInv(p, View(), Arrived(ids), collate);
      LoadAnswersItsCatalogs(p, View(), ids, collate);
      if cachedCatalog.Some? && mergedSources == Some(ids) {
        answer := cachedCatalog.value;
      } else {
        var cs := Contents(p, ids);
        RememberServerOwners(cs);
        mergedSources := Some(ids);
        answer := MergeMcpToolCatalogs(cs, collate);
        cachedCatalog := Some(answer);
      }
      flight := Done(flight.load, Some(answer));
    }
  }

  // ---------------------------------------------------------------------------
  // Combined leases
  // ---------------------------------------------------------------------------

  /** A combined lease holds one lease of every part. */
  datatype CombinedLease = CombinedLease(handles: seq<nat>, released: bool)

  datatype Holdings = Holdings(parts: seq<Leases>, combined: seq<CombinedLease>)

  datatype HoldingOp = TakeAll | DropAll(lease: nat) | TakeOne(part: nat) | DropOne(part: nat, handle: nat)

  /** The handle belongs to a combined lease, whose closure alone can release it. */
  predicate Owned(h: Holdings, part: nat, handle: nat) {
    exists k :: 0 <= k < |h.combined| && part < |h.combined[k].handles| && h.combined[k].handles[part] == handle
  }

  predicate CanApply(h: Holdings, op: HoldingOp) {
    match op
    case TakeAll => true
    case DropAll(lease) => lease < |h.combined| && HandlesValid(h, h.combined[lease].handles)
    case TakeOne(part) => part < |h.parts|
    case DropOne(part, handle) => part < |h.parts| && handle < |h.parts[part].released| && !Owned(h, part, handle)
  }

  predicate HandlesValid(h: Holdings, handles: seq<nat>) {
    |handles| == |h.parts| && forall i :: 0 <= i < |handles| ==> handles[i] < |h.parts[i].released|
  }

  function AcquireAll(parts: seq<Leases>): (r: seq<Leases>) {
    seq(|parts|, i requires 0 <= i < |parts| => Acquire(parts[i]))
  }

  function NextHandles(parts: seq<Leases>): seq<nat> {
    seq(|parts|, i requires 0 <= i < |parts| => |parts[i].released|)
  }

  function ReleaseAll(parts: seq<Leases>, handles: seq<nat>): seq<Leases>
    requires |handles| == |parts| && forall i :: 0 <= i < |handles| ==> handles[i] < |parts[i].released|
  {
    seq(|parts|, i requires 0 <= i < |parts| => Release(parts[i], handles[i]))
  }

  function Apply(h: Holdings, op: HoldingOp): Holdings
    requires CanApply(h, op)
  {
    match op
    case TakeAll => Holdings(AcquireAll(h.parts), h.combined + [CombinedLease(NextHandles(h.parts), false)])
    case DropAll(lease) =>
      if h.combined[lease].released then h
      else Holdings(ReleaseAll(h.parts, h.combined[lease].handles), h.combined[lease := h.combined[lease].(released := true)])
    case TakeOne(part) => h.(parts := h.parts[part := Acquire(h.parts[part])])
    case DropOne(part, handle) => h.(parts := h.parts[part := Release(h.parts[part], handle)])
  }

  ghost predicate PartCounts(l: Leases) {
    l.active == Outstanding(l.released)
  }

  ghost predicate LeaseHeld(h: Holdings, k: nat)
    requires k < |h.combined|
  {
    && HandlesValid(h, h.combined[k].handles)
    && forall i :: 0 <= i < |h.parts| ==> h.parts[i].released[h.combined[k].handles[i]] == h.combined[k].released
  }

  ghost predicate Disjoint(a: CombinedLease, b: CombinedLease) {
    forall i :: 0 <= i < |a.handles| && i < |b.handles| ==> a.handles[i] != b.handles[i]
  }

  ghost predicate HoldingsInv(h: Holdings) {
    && (forall i :: 0 <= i < |h.parts| ==> PartCounts(h.parts[i]))
    && (forall k: nat :: k < |h.combined| ==> LeaseHeld(h, k))
    && (forall k, m :: 0 <= k < m < |h.combined| ==> Disjoint(h.combined[k], h.combined[m]))
  }

  lemma AcquireCounts(l: Leases)
    requires PartCounts(l)
    ensures PartCounts(Acquire(l))
  {
    assert (l.released + [false])[..|l.released|] == l.released;
  }

  lemma ReleaseCounts(l: Leases, handle: nat)
    requires PartCounts(l) && handle < |l.released|
    ensures PartCounts(Release(l, handle))
  {
    if !l.released[handle] {
      OutstandingUpdate(l.released, handle);
    }
  }

  lemma {:induction false} HeldCounts(released: seq<bool>, handle: nat)
    requires handle < |released| && !released[handle]
    ensures Outstanding(released) >= 1
  {
    OutstandingUpdate(released, handle);
  }

  lemma ApplyKeepsInv(h: Holdings, op: HoldingOp)
    requires HoldingsInv(h) && CanApply(h, op)
    ensures HoldingsInv(Apply(h, op))
  {
    hide Outstanding;
    var g := Apply(h, op);
    forall i | 0 <= i < |g.parts| ensures PartCounts(g.parts[i]) {
      AcquireCounts(h.parts[i]);
      if op.DropAll? {
        ReleaseCounts(h.parts[i], h.combined[op.lease].handles[i]);
      } else if op.DropOne? && op.part == i {
        ReleaseCounts(h.parts[i], op.handle);
      }
    }
    forall k: nat | k < |g.combined| ensures LeaseHeld(g, k) {
      ApplyKeepsLease(h, op, k);
    }
    forall k, m | 0 <= k < m < |g.combined| ensures Disjoint(g.combined[k], g.combined[m]) {
      if m < |h.combined| {
        assert Disjoint(h.combined[k], h.combined[m]);
      } else {
        assert LeaseHeld(h, k);
      }
    }
  }

  lemma ApplyKeepsLease(h: Holdings, op: HoldingOp, k: nat)
    requires HoldingsInv(h) && CanApply(h, op) && k < |Apply(h, op).combined|
    ensures LeaseHeld(Apply(h, op), k)
  {
    hide Outstanding, PartCounts;
    if k < |h.combined| {
      assert LeaseHeld(h, k);
      if op.DropAll? && op.lease != k {
        assert Disjoint(h.combined[k], h.combined[op.lease]) || Disjoint(h.combined[op.lease], h.combined[k]);
      } else if op.DropOne? {
        assert h.combined[k].handles[op.part] != op.handle;
      }
    }
  }

  predicate CanApplyAll(h: Holdings, ops: seq<HoldingOp>)
    decreases |ops|
  {
    ops == [] || (CanApply(h, ops[0]) && CanApplyAll(Apply(h, ops[0]), ops[1..]))
  }

  function ApplyAll(h: Holdings, ops: seq<HoldingOp>): Holdings
    requires CanApplyAll(h, ops)
    decreases |ops|
  {
    if ops == [] then h else ApplyAll(Apply(h, ops[0]), ops[1..])
  }

  lemma {:induction false} ApplyAllKeepsInv(h: Holdings, ops: seq<HoldingOp>)
    requires HoldingsInv(h) && CanApplyAll(h, ops)
    ensures HoldingsInv(ApplyAll(h, ops))
    decreases |ops|
  {
    if ops != [] {
      ApplyKeepsInv(h, ops[0]);
      ApplyAllKeepsInv(Apply(h, ops[0]), ops[1..]);
    }
  }

  /** As long as a combined lease is not released, every part counts as leased, whatever other
      leases of the facade or of the parts come and go. */
  lemma CombinedLeaseHoldsEveryPart(h: Holdings, ops: seq<HoldingOp>, k: nat, part: nat)
    requires HoldingsInv(h) && CanApplyAll(h, ops)
    requires var g := ApplyAll(h, ops); k < |g.combined| && !g.combined[k].released && part < |g.parts|
    ensures ApplyAll(h, ops).parts[part].active >= 1
  {
    var g := ApplyAll(h, ops);
    ApplyAllKeepsInv(h, ops);
    assert LeaseHeld(g, k) && PartCounts(g.parts[part]);
    HeldCounts(g.parts[part].released, g.combined[k].handles[part]);
  }
}
