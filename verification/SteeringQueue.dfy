/** The agent steering queue: completed subagent runs are listed, selected under a prompt budget,
    leased to a requester turn, and then acknowledged or released. */
module SteeringQueue {
  import opened Base
  import opened Sorting

  type RunId = string
  type LeaseId = string
  /** Prompt text in UTF-16 code units, which is what the limit counts. */
  type Text = seq<int>

  datatype Status = NotRequired | Pending | InProgress | Delivered | Failed | Suspended | Discarded

  datatype Payload = Payload(requester: string, endedAt: Option<int>, body: string)

  datatype Delivery = Delivery(
    status: Status,
    payload: Option<Payload>,
    createdAt: Option<int>,
    deliveredAt: Option<int>,
    announcedAt: Option<int>,
    leaseId: Option<LeaseId>,
    leasedAt: Option<int>,
    injectedAt: Option<int>,
    suspendedAt: Option<int>,
    suspendedReason: Option<string>,
    lastError: Option<string>,
    lastDropReason: Option<string>)

  datatype Entry = Entry(
    runId: RunId,
    createdAt: int,
    executionEndedAt: Option<int>,
    delivery: Option<Delivery>,
    cleanupHandled: bool,
    cleanupCompletedAt: Option<int>)

  const STALE_LEASE_MS: int := 5 * 60 * 1000
  const MAX_PROMPT_CHARS: int := 24000
  const MAX_SAFE_INTEGER: int := 9007199254740991

  // ---------------------------------------------------------------------------
  // Listing
  // ---------------------------------------------------------------------------

  predicate StaleLease(d: Delivery, now: int) {
    d.status.InProgress? && d.leasedAt.Some? && now - d.leasedAt.value > STALE_LEASE_MS
  }

  predicate Eligible(e: Entry, requester: string, now: int) {
    && requester != ""
    && e.delivery.Some? && e.delivery.value.payload.Some?
    && (e.cleanupHandled ==> StaleLease(e.delivery.value, now))
    && e.delivery.value.payload.value.requester == requester
    && (e.delivery.value.status.Pending? || StaleLease(e.delivery.value, now))
  }

  function EligibleAt(requester: string, now: int): Entry -> bool {
    (e: Entry) => Eligible(e, requester, now)
  }

  function EndedAt(e: Entry): int {
    var reported := if e.delivery.Some? && e.delivery.value.payload.Some? then e.delivery.value.payload.value.endedAt else None;
    var ended := OrElse(reported, e.executionEndedAt);
    if ended.Some? then ended.value else MAX_SAFE_INTEGER
  }

  function CreatedAt(e: Entry): int {
    if e.delivery.Some? && e.delivery.value.createdAt.Some? then e.delivery.value.createdAt.value else e.createdAt
  }

  /** Oldest completion first, then creation time, then the locale's order of run ids. */
  function DeliveryOrder(collate: string -> real): (Entry, Entry) -> bool {
    (a: Entry, b: Entry) =>
      EndedAt(a) < EndedAt(b)
      || (EndedAt(a) == EndedAt(b)
          && (CreatedAt(a) < CreatedAt(b)
              || (CreatedAt(a) == CreatedAt(b) && collate(a.runId) <= collate(b.runId))))
  }

  /** How prompts are rendered and run ids are collated. */
  datatype Format = Format(header: Text, section: (Entry, nat) -> Text, collate: string -> real)

  function ListPending(f: Format, runs: seq<Entry>, requester: string, now: int): seq<Entry> {
    Sort(Filter(runs, EligibleAt(requester, now)), DeliveryOrder(f.collate))
  }

  ghost predicate DistinctIds(runs: seq<Entry>) {
    forall i, j :: 0 <= i < j < |runs| ==> runs[i].runId != runs[j].runId
  }

  function Ids(items: seq<Entry>): (ids: seq<RunId>)
    ensures |ids| == |items| && forall i :: 0 <= i < |ids| ==> ids[i] == items[i].runId
  {
    seq(|items|, i requires 0 <= i < |items| => items[i].runId)
  }

  lemma DeliveryOrderIsTotal(collate: string -> real)
    ensures TotalPreorder(DeliveryOrder(collate))
  {
  }

  /** The listing holds exactly the eligible runs, each once, in delivery order. */
  lemma ListingIsExact(f: Format, runs: seq<Entry>, requester: string, now: int)
    requires DistinctIds(runs)
    ensures var list := ListPending(f, runs, requester, now);
            && (forall e :: e in list <==> e in runs && Eligible(e, requester, now))
            && DistinctIds(list)
            && Sorted(list, DeliveryOrder(f.collate))
  {
    var picked := Filter(runs, EligibleAt(requester, now));
    var list := ListPending(f, runs, requester, now);
    DeliveryOrderIsTotal(f.collate);
    SortSorted(picked, DeliveryOrder(f.collate));
    SortSameElements(picked, DeliveryOrder(f.collate));
    assert NoDup(runs);
    FilterNoDup(runs, EligibleAt(requester, now));
    SortNoDup(picked, DeliveryOrder(f.collate));
    forall i, j | 0 <= i < j < |list| ensures list[i].runId != list[j].runId {
      assert list[i] in runs && list[j] in runs && list[i] != list[j];
    }
  }

  /** What is offered to a requester, in plain terms: the runs whose kept result names that requester and
      which either wait with their cleanup not yet begun, or sit under a lease more than five minutes old. */
  lemma OfferedExactly(f: Format, runs: seq<Entry>, requester: string, now: int, e: Entry)
    requires DistinctIds(runs)
    ensures e in ListPending(f, runs, requester, now) <==>
            && e in runs && requester != ""
            && e.delivery.Some? && e.delivery.value.payload.Some?
            && e.delivery.value.payload.value.requester == requester
            && ((e.delivery.value.status == Pending && !e.cleanupHandled)
                || (e.delivery.value.status == InProgress && e.delivery.value.leasedAt.Some?
                    && now - e.delivery.value.leasedAt.value > 300000))
  {
    hide ListPending;
    ListingIsExact(f, runs, requester, now);
  }

  /** The end time that orders a listed run: the one its result reports, else the one of its execution,
      else later than all others. */
  ghost predicate OrderedBy(e: Entry, ended: int, created: int) {
    && e.delivery.Some? && e.delivery.value.payload.Some?
    && (match e.delivery.value.payload.value.endedAt
        case Some(reported) => ended == reported
        case None => if e.executionEndedAt.Some? then ended == e.executionEndedAt.value else ended == 9007199254740991)
    && (match e.delivery.value.createdAt
        case Some(since) => created == since
        case None => created == e.createdAt)
  }

  /** Listed runs come oldest completion first, a run without an end time last, ties by creation time. */
  lemma OldestFirst(f: Format, runs: seq<Entry>, requester: string, now: int, i: nat, j: nat)
    requires DistinctIds(runs) && i < j < |ListPending(f, runs, requester, now)|
    ensures var a, b := ListPending(f, runs, requester, now)[i], ListPending(f, runs, requester, now)[j];
            && OrderedBy(a, EndedAt(a), CreatedAt(a)) && OrderedBy(b, EndedAt(b), CreatedAt(b))
            && EndedAt(a) <= EndedAt(b)
            && (EndedAt(a) == EndedAt(b) ==> CreatedAt(a) <= CreatedAt(b))
            && (EndedAt(a) == EndedAt(b) && CreatedAt(a) == CreatedAt(b) ==> f.collate(a.runId) <= f.collate(b.runId))
  {
    hide ListPending;
    ListingIsExact(f, runs, requester, now);
    var list := ListPending(f, runs, requester, now);
    assert DeliveryOrder(f.collate)(list[i], list[j]);
    assert list[i] in list && list[j] in list;
  }

  // ---------------------------------------------------------------------------
  // Selecting under the prompt budget
  // ---------------------------------------------------------------------------

  const SEPARATOR: Text := [10, 10]

  /** The rendered prompt of a batch. */
  function Prompt(f: Format, items: seq<Entry>): Text {
    if items == [] then f.header
    else
      var n := |items| - 1;
      Prompt(f, items[..n]) + SEPARATOR + f.section(items[n], n)
  }

  predicate Fits(f: Format, items: seq<Entry>) {
    |Prompt(f, items)| <= MAX_PROMPT_CHARS
  }

  /** How many items the selection takes once the first `k` have fitted. */
  function SelectFrom(f: Format, items: seq<Entry>, k: nat): (n: nat)
    requires k <= |items|
    ensures k <= n <= |items|
    ensures items != [] ==> n > 0
    decreases |items| - k
  {
    if k < |items| && Fits(f, items[..k + 1]) then SelectFrom(f, items, k + 1)
    else if k == 0 && items != [] then 1
    else k
  }

  function Selected(f: Format, items: seq<Entry>): (selected: seq<Entry>)
    ensures |selected| <= |items| && selected == items[..|selected|]
    ensures items != [] ==> selected != []
  {
    items[..SelectFrom(f, items, 0)]
  }

  lemma {:induction false} PromptGrows(f: Format, items: seq<Entry>, j: nat, k: nat)
    requires j <= k <= |items|
    ensures |Prompt(f, items[..j])| <= |Prompt(f, items[..k])|
  {
    if j < k {
      assert items[..k][..k - 1] == items[..k - 1];
      PromptGrows(f, items, j, k - 1);
    }
  }

  lemma {:induction false} SelectFromFits(f: Format, items: seq<Entry>, k: nat)
    requires k <= |items| && (k > 0 ==> Fits(f, items[..k]))
    ensures var n := SelectFrom(f, items, k);
            && (n > 0 ==> Fits(f, items[..n]) || (n == 1 && k == 0))
            && (n < |items| ==> !Fits(f, items[..n + 1]) || (n == 1 && k == 0 && !Fits(f, items[..1])))
    decreases |items| - k
  {
    if k < |items| && Fits(f, items[..k + 1]) {
      SelectFromFits(f, items, k + 1);
    }
  }

  /** The prompt of a batch holds, after the header, every item's section with its place in the batch, in
      order, each behind a blank line; what comes before a section is the prompt of the items before. */
  lemma {:induction false} PromptSections(f: Format, items: seq<Entry>, i: nat)
    requires i < |items|
    ensures Prompt(f, []) == f.header
    ensures Prompt(f, items[..i]) + [10, 10] + f.section(items[i], i) <= Prompt(f, items)
    ensures i == |items| - 1 ==> Prompt(f, items[..i]) + [10, 10] + f.section(items[i], i) == Prompt(f, items)
  {
    var n := |items| - 1;
    if i < n {
      assert items[..n][..i] == items[..i];
      PromptSections(f, items[..n], i);
    }
  }

  /** The selection is the longest prefix whose prompt is at most 24000 long, or the first item alone when
      not even that fits; so only a single item can exceed the budget. */
  lemma SelectsLongestFittingPrefix(f: Format, items: seq<Entry>)
    ensures var n := |Selected(f, items)|;
            && Selected(f, items) == items[..n]
            && (n == 0 <==> items == [])
            && (items != [] && |Prompt(f, items[..1])| <= 24000 ==>
                  |Prompt(f, items[..n])| <= 24000 && forall k :: n < k <= |items| ==> |Prompt(f, items[..k])| > 24000)
            && (items != [] && |Prompt(f, items[..1])| > 24000 ==>
                  n == 1 && forall k :: 1 <= k <= |items| ==> |Prompt(f, items[..k])| > 24000)
            && (|Prompt(f, Selected(f, items))| > 24000 && items != [] ==> n == 1)
  {
    var n := SelectFrom(f, items, 0);
    SelectFromFits(f, items, 0);
    if items != [] {
      var first := if Fits(f, items[..1]) then n + 1 else 1;
      forall k | first <= k <= |items| ensures !Fits(f, items[..k]) {
        PromptGrows(f, items, first, k);
      }
      PromptGrows(f, items, 1, n);
    }
  }

  lemma PromptOfMore(f: Format, items: seq<Entry>, i: nat)
    requires i < |items|
    ensures Prompt(f, items[..i + 1]) == Prompt(f, items[..i]) + SEPARATOR + f.section(items[i], i)
  {
    assert items[..i + 1][..i] == items[..i];
  }

  /** Selects with a running length, which is always the length of the rendered prompt. */
  method SelectPromptBoundedItems(f: Format, items: seq<Entry>) returns (selected: seq<Entry>, prompt: Text)
    ensures selected == Selected(f, items) && prompt == Prompt(f, selected)
  {
    selected, prompt := [], f.header;
    assert prompt == Prompt(f, []);
    hide Prompt;
    var promptLength := |f.header|;
    var i := 0;
    while i < |items|
      invariant 0 <= i <= |items| && selected == items[..i]
      invariant prompt == Prompt(f, selected) && promptLength == |prompt|
      invariant SelectFrom(f, items, 0) == SelectFrom(f, items, i)
    {
      var section := f.section(items[i], |selected|);
      var nextPromptLength := promptLength + |SEPARATOR| + |section|;
      var longer := prompt + SEPARATOR + section;
      PromptOfMore(f, items, i);
      if nextPromptLength > MAX_PROMPT_CHARS {
        if |selected| == 0 {
          selected, prompt := [items[i]], longer;
          assert selected == items[..1];
        }
        return;
      }
      selected, prompt, promptLength := selected + [items[i]], longer, nextPromptLength;
      i := i + 1;
    }
  }

  // ---------------------------------------------------------------------------
  // Lease, acknowledge, release
  // ---------------------------------------------------------------------------

  predicate Holds(e: Entry, leaseId: LeaseId) {
    e.delivery.Some? && e.delivery.value.status.InProgress? && e.delivery.value.leaseId == Some(leaseId)
  }

  function LeaseEntry(e: Entry, leaseId: LeaseId, now: int): Entry {
    if e.delivery.None? then e
    else
      e.(delivery := Some(e.delivery.value.(
           status := InProgress, leaseId := Some(leaseId), leasedAt := Some(now), injectedAt := None,
           lastDropReason := Some("waiting_for_requester_turn"))),
         cleanupHandled := true)
  }

  function AckEntry(e: Entry, leaseId: LeaseId, now: int): Entry {
    if !Holds(e, leaseId) then e
    else
      e.(delivery := Some(e.delivery.value.(
           status := Delivered, deliveredAt := Some(now), announcedAt := Some(now), injectedAt := Some(now),
           lastError := None, suspendedAt := None, suspendedReason := None, payload := None,
           leaseId := None, leasedAt := None)))
  }

  function ReleaseEntry(e: Entry, leaseId: LeaseId, error: Option<string>): Entry {
    if !Holds(e, leaseId) then e
    else
      e.(delivery := Some(e.delivery.value.(
           status := if e.delivery.value.suspendedAt.Some? then Suspended else Pending,
           leaseId := None, leasedAt := None, injectedAt := None,
           lastError := OrElse(error, e.delivery.value.lastError))),
         cleanupHandled := if e.cleanupCompletedAt.Some? then e.cleanupHandled else false)
  }

  /** What a turn leaves of a run it leases. */
  ghost predicate LeasedAs(before: Entry, after: Entry, leaseId: LeaseId, now: int) {
    && SameRun(before, after) && before.delivery.Some? && after.delivery.Some?
    && var was, d := before.delivery.value, after.delivery.value;
    && d.status == InProgress && d.leaseId == Some(leaseId) && d.leasedAt == Some(now) && d.injectedAt == None
    && d.lastDropReason == Some("waiting_for_requester_turn") && after.cleanupHandled
    && d.payload == was.payload && d.createdAt == was.createdAt
    && d.deliveredAt == was.deliveredAt && d.announcedAt == was.announcedAt
    && d.suspendedAt == was.suspendedAt && d.suspendedReason == was.suspendedReason && d.lastError == was.lastError
  }

  /** A run acknowledged under its lease is delivered, and its result is gone. */
  ghost predicate DeliveredAs(before: Entry, after: Entry, now: int) {
    && SameRun(before, after) && before.delivery.Some? && after.delivery.Some?
    && after.cleanupHandled == before.cleanupHandled
    && var was, d := before.delivery.value, after.delivery.value;
    && d.status == Delivered && d.deliveredAt == Some(now) && d.announcedAt == Some(now) && d.injectedAt == Some(now)
    && d.payload == None && d.leaseId == None && d.leasedAt == None
    && d.lastError == None && d.suspendedAt == None && d.suspendedReason == None
    && d.createdAt == was.createdAt && d.lastDropReason == was.lastDropReason
  }

  /** A run released from its lease keeps its result; suspended before, it is suspended again. */
  ghost predicate ReleasedAs(before: Entry, after: Entry, error: Option<string>) {
    && SameRun(before, after) && before.delivery.Some? && after.delivery.Some?
    && after.cleanupHandled == (before.cleanupHandled && before.cleanupCompletedAt != None)
    && var was, d := before.delivery.value, after.delivery.value;
    && d.status == (if was.suspendedAt != None then Suspended else Pending)
    && d.leaseId == None && d.leasedAt == None && d.injectedAt == None
    && d.lastError == (if error != None then error else was.lastError)
    && d.payload == was.payload && d.createdAt == was.createdAt
    && d.deliveredAt == was.deliveredAt && d.announcedAt == was.announcedAt
    && d.suspendedAt == was.suspendedAt && d.suspendedReason == was.suspendedReason && d.lastDropReason == was.lastDropReason
  }

  ghost predicate SameRun(before: Entry, after: Entry) {
    && after.runId == before.runId && after.createdAt == before.createdAt
    && after.executionEndedAt == before.executionEndedAt && after.cleanupCompletedAt == before.cleanupCompletedAt
  }

  /** The run is under this very lease. */
  ghost predicate UnderLease(e: Entry, leaseId: LeaseId) {
    e.delivery.Some? && e.delivery.value.status == InProgress && e.delivery.value.leaseId == Some(leaseId)
  }

  ghost predicate NamesRequester(e: Entry, requester: string) {
    e.delivery.Some? && e.delivery.value.payload.Some? && e.delivery.value.payload.value.requester == requester
  }

  function LeaseRuns(runs: seq<Entry>, ids: seq<RunId>, leaseId: LeaseId, now: int): (r: seq<Entry>)
    ensures |r| == |runs|
    ensures forall i :: 0 <= i < |r| ==> r[i] == if runs[i].runId in ids then LeaseEntry(runs[i], leaseId, now) else runs[i]
  {
    seq(|runs|, i requires 0 <= i < |runs| => if runs[i].runId in ids then LeaseEntry(runs[i], leaseId, now) else runs[i])
  }

  function AckRuns(runs: seq<Entry>, ids: seq<RunId>, leaseId: LeaseId, now: int): (r: seq<Entry>)
    ensures |r| == |runs|
    ensures forall i :: 0 <= i < |r| ==> r[i] == if runs[i].runId in ids then AckEntry(runs[i], leaseId, now) else runs[i]
  {
    seq(|runs|, i requires 0 <= i < |runs| => if runs[i].runId in ids then AckEntry(runs[i], leaseId, now) else runs[i])
  }

  function ReleaseRuns(runs: seq<Entry>, ids: seq<RunId>, leaseId: LeaseId, error: Option<string>): (r: seq<Entry>)
    ensures |r| == |runs|
    ensures forall i :: 0 <= i < |r| ==> r[i] == if runs[i].runId in ids then ReleaseEntry(runs[i], leaseId, error) else runs[i]
  {
    seq(|runs|, i requires 0 <= i < |runs| => if runs[i].runId in ids then ReleaseEntry(runs[i], leaseId, error) else runs[i])
  }

  function HeldIn(ids: seq<RunId>, leaseId: LeaseId): Entry -> bool {
    (e: Entry) => e.runId in ids && Holds(e, leaseId)
  }

  /** The runs an acknowledgement or a release acts on. */
  function Affected(runs: seq<Entry>, ids: seq<RunId>, leaseId: LeaseId): seq<RunId> {
    Ids(Filter(runs, HeldIn(ids, leaseId)))
  }

  function Batch(f: Format, runs: seq<Entry>, requester: string, now: int): (batch: seq<Entry>)
    ensures |batch| <= |ListPending(f, runs, requester, now)|
  {
    Selected(f, ListPending(f, runs, requester, now))
  }

  /** A leased run is listed again exactly when its lease is older than five minutes. */
  lemma LeasedIsListedWhenStale(f: Format, runs: seq<Entry>, requester: string, now: int, e: Entry)
    requires DistinctIds(runs) && e in runs && requester != ""
    requires e.delivery.Some? && e.delivery.value.status.InProgress?
    requires e.delivery.value.payload.Some? && e.delivery.value.payload.value.requester == requester
    ensures e in ListPending(f, runs, requester, now) <==>
            e.delivery.value.leasedAt.Some? && now - e.delivery.value.leasedAt.value > 300000
  {
    ListingIsExact(f, runs, requester, now);
  }

  /** After a lease is released the run is offered again exactly when it was never suspended and
      its cleanup has not completed. */
  lemma ReleasedIsOfferedAgain(e: Entry, requester: string, leased: int, now: int, leaseId: LeaseId, error: Option<string>)
    requires Eligible(e, requester, leased)
    ensures var r := ReleaseEntry(LeaseEntry(e, leaseId, leased), leaseId, error);
            && r.delivery.Some? && r.delivery.value.payload == e.delivery.value.payload
            && (Eligible(r, requester, now) <==> e.delivery.value.suspendedAt.None? && e.cleanupCompletedAt.None?)
  {
  }

  // ---------------------------------------------------------------------------
  // Runs of the protocol
  // ---------------------------------------------------------------------------

  /** `issued` holds the lease ids used so far and `log` every delivery, in order. */
  datatype Queue = Queue(runs: seq<Entry>, issued: set<LeaseId>, log: seq<RunId>)

  datatype Event =
    | Enqueue(entry: Entry)
    | Lease(requester: string, leaseId: LeaseId, now: int)
    | Ack(ids: seq<RunId>, leaseId: LeaseId, now: int)
    | Release(ids: seq<RunId>, leaseId: LeaseId, error: Option<string>)

  /** Lease ids are fresh; acknowledgements and releases may carry any ids, old or never issued. */
  predicate Enabled(q: Queue, e: Event) {
    match e
    case Enqueue(entry) =>
      (forall i :: 0 <= i < |q.runs| ==> q.runs[i].runId != entry.runId)
      && (entry.delivery.Some? ==> entry.delivery.value.leaseId.None?) && entry.runId !in q.log
    case Lease(_, leaseId, _) => leaseId !in q.issued
    case Ack(_, _, _) => true
    case Release(_, _, _) => true
  }

  function Step(f: Format, q: Queue, e: Event): Queue
    requires Enabled(q, e)
  {
    match e
    case Enqueue(entry) => q.(runs := q.runs + [entry])
    case Lease(requester, leaseId, now) =>
      q.(runs := LeaseRuns(q.runs, Ids(Batch(f, q.runs, requester, now)), leaseId, now), issued := q.issued + {leaseId})
    case Ack(ids, leaseId, now) =>
      q.(runs := AckRuns(q.runs, ids, leaseId, now), log := q.log + Affected(q.runs, ids, leaseId))
    case Release(ids, leaseId, error) => q.(runs := ReleaseRuns(q.runs, ids, leaseId, error))
  }

  predicate CanRun(f: Format, q: Queue, events: seq<Event>)
    decreases |events|
  {
    events == [] || (Enabled(q, events[0]) && CanRun(f, Step(f, q, events[0]), events[1..]))
  }

  function Run(f: Format, q: Queue, events: seq<Event>): Queue
    requires CanRun(f, q, events)
    decreases |events|
  {
    if events == [] then q else Run(f, Step(f, q, events[0]), events[1..])
  }

  predicate IsDelivered(e: Entry) {
    e.delivery.Some? && e.delivery.value.status.Delivered? && e.delivery.value.payload.None?
  }

  ghost predicate Inv(q: Queue) {
    && DistinctIds(q.runs)
    && (forall i :: 0 <= i < |q.runs| && q.runs[i].delivery.Some? && q.runs[i].delivery.value.leaseId.Some? ==>
          q.runs[i].delivery.value.leaseId.value in q.issued)
    && NoDup(q.log)
    && (forall i :: 0 <= i < |q.runs| && q.runs[i].runId in q.log ==> IsDelivered(q.runs[i]))
    && (forall id :: id in q.log ==> exists i :: 0 <= i < |q.runs| && q.runs[i].runId == id)
  }

  /** The runs leased are listed ones. */
  lemma BatchIsEligible(f: Format, runs: seq<Entry>, requester: string, now: int, i: nat)
    requires DistinctIds(runs) && i < |runs| && runs[i].runId in Ids(Batch(f, runs, requester, now))
    ensures Eligible(runs[i], requester, now)
  {
    hide ListPending, Selected, Eligible, Sorted;
    ListingIsExact(f, runs, requester, now);
    var list := ListPending(f, runs, requester, now);
    var batch := Batch(f, runs, requester, now);
    var k :| 0 <= k < |batch| && batch[k].runId == runs[i].runId;
    assert batch[k] == list[k] && list[k] in list;
    assert list[k] in runs;
  }

  lemma AffectedExact(runs: seq<Entry>, ids: seq<RunId>, leaseId: LeaseId)
    requires DistinctIds(runs)
    ensures NoDup(Affected(runs, ids, leaseId))
    ensures forall i :: 0 <= i < |runs| ==>
              (runs[i].runId in Affected(runs, ids, leaseId) <==> runs[i].runId in ids && Holds(runs[i], leaseId))
    ensures forall id :: id in Affected(runs, ids, leaseId) ==> exists i :: 0 <= i < |runs| && runs[i].runId == id
  {
    var held := Filter(runs, HeldIn(ids, leaseId));
    var affected := Affected(runs, ids, leaseId);
    assert NoDup(runs);
    FilterNoDup(runs, HeldIn(ids, leaseId));
    forall i, j | 0 <= i < j < |held| ensures affected[i] != affected[j] {
      assert held[i] in runs && held[j] in runs;
    }
    forall id | id in affected ensures exists i :: 0 <= i < |runs| && runs[i].runId == id {
      var k :| 0 <= k < |affected| && affected[k] == id;
      assert held[k] in runs;
    }
    forall i | 0 <= i < |runs|
      ensures runs[i].runId in affected <==> runs[i].runId in ids && Holds(runs[i], leaseId)
    {
      if runs[i].runId in affected {
        var k :| 0 <= k < |affected| && affected[k] == runs[i].runId;
        assert held[k] in runs;
      }
      if runs[i] in held {
        var k :| 0 <= k < |held| && held[k] == runs[i];
        assert affected[k] == runs[i].runId;
      }
    }
  }

  /** A lease takes runs of its requester only, each of the ids one of them, and leaves every other run alone. */
  ghost predicate TakenFor(before: seq<Entry>, after: seq<Entry>, ids: seq<RunId>, requester: string, leaseId: LeaseId, now: int) {
    && |after| == |before|
    && (forall id :: id in ids ==> exists i :: 0 <= i < |before| && before[i].runId == id && NamesRequester(before[i], requester))
    && (forall i :: 0 <= i < |before| ==>
          if before[i].runId in ids then NamesRequester(before[i], requester) && LeasedAs(before[i], after[i], leaseId, now)
          else after[i] == before[i])
  }

  lemma LeaseIsForRequester(f: Format, runs: seq<Entry>, requester: string, leaseId: LeaseId, now: int)
    requires DistinctIds(runs)
    ensures var ids := Ids(Batch(f, runs, requester, now));
            TakenFor(runs, LeaseRuns(runs, ids, leaseId, now), ids, requester, leaseId, now)
  {
    hide ListPending, Selected;
    var ids, batch := Ids(Batch(f, runs, requester, now)), Batch(f, runs, requester, now);
    forall i | 0 <= i < |runs| && runs[i].runId in ids ensures NamesRequester(runs[i], requester) {
      BatchIsEligible(f, runs, requester, now, i);
    }
    ListingIsExact(f, runs, requester, now);
    forall id | id in ids ensures exists i :: 0 <= i < |runs| && runs[i].runId == id && NamesRequester(runs[i], requester) {
      var k :| 0 <= k < |ids| && ids[k] == id;
      assert batch[k] in ListPending(f, runs, requester, now);
      var i :| 0 <= i < |runs| && runs[i] == batch[k];
    }
  }

  lemma AckDelivers(runs: seq<Entry>, ids: seq<RunId>, leaseId: LeaseId, now: int)
    ensures forall i :: 0 <= i < |runs| ==>
              if runs[i].runId in ids && UnderLease(runs[i], leaseId) then DeliveredAs(runs[i], AckRuns(runs, ids, leaseId, now)[i], now)
              else AckRuns(runs, ids, leaseId, now)[i] == runs[i]
  {
  }

  lemma ReleaseReturns(runs: seq<Entry>, ids: seq<RunId>, leaseId: LeaseId, error: Option<string>)
    ensures forall i :: 0 <= i < |runs| ==>
              if runs[i].runId in ids && UnderLease(runs[i], leaseId) then ReleasedAs(runs[i], ReleaseRuns(runs, ids, leaseId, error)[i], error)
              else ReleaseRuns(runs, ids, leaseId, error)[i] == runs[i]
  {
  }

  /** How one record may change in a step: by identity, nothing else moves. */
  ghost predicate Moved(before: Entry, after: Entry, delivered: bool) {
    && after.runId == before.runId
    && (before.delivery.Some? <==> after.delivery.Some?)
    && (before.delivery.Some? ==>
          if delivered then IsDelivered(after)
          else after.delivery.value.payload == before.delivery.value.payload)
    && (IsDelivered(before) ==> after == before)
  }

  lemma StepMoves(f: Format, q: Queue, e: Event)
    requires Inv(q) && Enabled(q, e)
    ensures var r := Step(f, q, e);
            && |q.runs| <= |r.runs| && q.issued <= r.issued
            && |q.log| <= |r.log| && r.log[..|q.log|] == q.log
            && forall i :: 0 <= i < |q.runs| ==>
                 Moved(q.runs[i], r.runs[i], q.runs[i].runId in r.log[|q.log|..])
  {
    hide Filter, Selected;
    if e.Lease? {
      forall i | 0 <= i < |q.runs| ensures Moved(q.runs[i], Step(f, q, e).runs[i], false) {
        if q.runs[i].runId in Ids(Batch(f, q.runs, e.requester, e.now)) {
          BatchIsEligible(f, q.runs, e.requester, e.now, i);
        }
      }
    } else if e.Ack? {
      AffectedExact(q.runs, e.ids, e.leaseId);
      assert Step(f, q, e).log[|q.log|..] == Affected(q.runs, e.ids, e.leaseId);
    }
  }

  lemma StepKeepsInv(f: Format, q: Queue, e: Event)
    requires Inv(q) && Enabled(q, e)
    ensures Inv(Step(f, q, e))
  {
    hide Filter, Selected, IsDelivered;
    StepMoves(f, q, e);
    var r := Step(f, q, e);
    if e.Ack? {
      AffectedExact(q.runs, e.ids, e.leaseId);
      AckLog(q, e);
    }
    assert DistinctIds(r.runs);
    forall id | id in r.log ensures exists i :: 0 <= i < |r.runs| && r.runs[i].runId == id {
      assert id in q.log ==> exists i :: 0 <= i < |q.runs| && q.runs[i].runId == id;
      var i :| 0 <= i < |q.runs| && q.runs[i].runId == id;
      assert r.runs[i].runId == id;
    }
    forall i | 0 <= i < |r.runs| && r.runs[i].runId in r.log ensures IsDelivered(r.runs[i]) {
      if i < |q.runs| {
        assert Moved(q.runs[i], r.runs[i], q.runs[i].runId in r.log[|q.log|..]);
        assert r.log == q.log + r.log[|q.log|..];
        AffectedHasDelivery(q, e, i);
      }
    }
  }

  lemma AffectedHasDelivery(q: Queue, e: Event, i: nat)
    requires Inv(q) && i < |q.runs|
    ensures e.Ack? && q.runs[i].runId in Affected(q.runs, e.ids, e.leaseId) ==> q.runs[i].delivery.Some?
  {
    if e.Ack? {
      AffectedExact(q.runs, e.ids, e.leaseId);
    }
  }

  lemma AckLog(q: Queue, e: Event)
    requires Inv(q) && e.Ack?
    ensures NoDup(q.log + Affected(q.runs, e.ids, e.leaseId))
  {
    AffectedExact(q.runs, e.ids, e.leaseId);
    var affected := Affected(q.runs, e.ids, e.leaseId);
    forall id | id in affected ensures id !in q.log {
      var i :| 0 <= i < |q.runs| && q.runs[i].runId == id;
      assert Holds(q.runs[i], e.leaseId) && !IsDelivered(q.runs[i]);
    }
    var all := q.log + affected;
    forall i, j | 0 <= i < j < |all| ensures all[i] != all[j] {
      assert i < |q.log| <= j ==> all[j] in affected && all[i] in q.log;
    }
  }

  lemma {:induction false} RunKeepsInv(f: Format, q: Queue, events: seq<Event>)
    requires Inv(q) && CanRun(f, q, events)
    ensures Inv(Run(f, q, events))
    decreases |events|
  {
    if events != [] {
      StepKeepsInv(f, q, events[0]);
      RunKeepsInv(f, Step(f, q, events[0]), events[1..]);
    }
  }

  /** Over every run no completion is delivered twice. */
  lemma DeliveredAtMostOnce(f: Format, runs: seq<Entry>, issued: set<LeaseId>, events: seq<Event>)
    requires Inv(Queue(runs, issued, [])) && CanRun(f, Queue(runs, issued, []), events)
    ensures NoDup(Run(f, Queue(runs, issued, []), events).log)
  {
    RunKeepsInv(f, Queue(runs, issued, []), events);
  }

  lemma MovedTwice(a: Entry, b: Entry, c: Entry, first: bool, second: bool)
    requires a.delivery.Some? && Moved(a, b, first) && Moved(b, c, second)
    ensures Moved(a, c, first || second)
  {
  }

  lemma TailsJoin(a: seq<RunId>, b: seq<RunId>, c: seq<RunId>, id: RunId)
    requires |a| <= |b| <= |c| && b[..|a|] == a && c[..|b|] == b
    ensures id in c[|a|..] <==> id in b[|a|..] || id in c[|b|..]
  {
    assert c[|a|..] == b[|a|..] + c[|b|..];
  }

  /** Over every run a completion keeps its payload until the run delivers it, and then has none. */
  lemma {:induction false} PayloadKeptUntilDelivered(f: Format, q: Queue, events: seq<Event>, i: nat)
    requires Inv(q) && CanRun(f, q, events) && i < |q.runs| && q.runs[i].delivery.Some?
    ensures var r := Run(f, q, events);
            && i < |r.runs| && |q.log| <= |r.log|
            && Moved(q.runs[i], r.runs[i], q.runs[i].runId in r.log[|q.log|..])
    decreases |events|
  {
    if events == [] {
      hide Inv;
    } else {
      hide Inv, Step, Enabled;
      var m, r, id := Step(f, q, events[0]), Run(f, q, events), q.runs[i].runId;
      StepMoves(f, q, events[0]);
      StepKeepsInv(f, q, events[0]);
      assert Moved(q.runs[i], m.runs[i], id in m.log[|q.log|..]);
      PayloadKeptUntilDelivered(f, m, events[1..], i);
      RunExtendsLog(f, m, events[1..]);
      MovedTwice(q.runs[i], m.runs[i], r.runs[i], id in m.log[|q.log|..], id in r.log[|m.log|..]);
      hide Moved, Run, CanRun;
      TailsJoin(q.log, m.log, r.log, id);
    }
  }

  lemma {:induction false} RunExtendsLog(f: Format, q: Queue, events: seq<Event>)
    requires Inv(q) && CanRun(f, q, events)
    ensures var r := Run(f, q, events); |q.log| <= |r.log| && r.log[..|q.log|] == q.log
    decreases |events|
  {
    if events != [] {
      var m := Step(f, q, events[0]);
      StepMoves(f, q, events[0]);
      StepKeepsInv(f, q, events[0]);
      RunExtendsLog(f, m, events[1..]);
      var r := Run(f, q, events);
      assert r.log[..|q.log|] == r.log[..|m.log|][..|q.log|];
    }
  }

  /** The run is not held under this lease id and never will be again. */
  ghost predicate Lost(q: Queue, i: nat, leaseId: LeaseId) {
    && i < |q.runs| && leaseId in q.issued
    && (q.runs[i].delivery.Some? ==> q.runs[i].delivery.value.leaseId != Some(leaseId))
  }

  lemma StepKeepsLost(f: Format, q: Queue, e: Event, i: nat, leaseId: LeaseId)
    requires Inv(q) && Enabled(q, e) && Lost(q, i, leaseId)
    ensures Lost(Step(f, q, e), i, leaseId)
  {
    hide Filter, Selected;
  }

  /** Once a run has left a lease — delivered, released, or taken over after it went stale — then
      for the rest of every run an acknowledgement or release under the old id does not touch it. */
  lemma {:induction false} SupersededLeaseIsInert(
    f: Format, q: Queue, events: seq<Event>, i: nat, leaseId: LeaseId,
    ids: seq<RunId>, now: int, error: Option<string>)
    requires Inv(q) && CanRun(f, q, events) && Lost(q, i, leaseId)
    ensures var r := Run(f, q, events);
            && i < |r.runs|
            && AckRuns(r.runs, ids, leaseId, now)[i] == r.runs[i]
            && ReleaseRuns(r.runs, ids, leaseId, error)[i] == r.runs[i]
            && r.runs[i].runId !in Affected(r.runs, ids, leaseId)
    decreases |events|
  {
    if events == [] {
      AffectedExact(q.runs, ids, leaseId);
    } else {
      StepKeepsInv(f, q, events[0]);
      StepKeepsLost(f, q, events[0], i, leaseId);
      SupersededLeaseIsInert(f, Step(f, q, events[0]), events[1..], i, leaseId, ids, now, error);
    }
  }

  /** Taking over a stale lease, acknowledging and releasing all make the old lease id lost. */
  lemma LeavingALease(f: Format, q: Queue, e: Event, i: nat, leaseId: LeaseId)
    requires Inv(q) && Enabled(q, e) && i < |q.runs| && Holds(q.runs[i], leaseId)
    ensures Lost(Step(f, q, e), i, leaseId) <==>
            (match e
             case Enqueue(_) => false
             case Lease(requester, _, now) => q.runs[i].runId in Ids(Batch(f, q.runs, requester, now))
             case Ack(ids, id, _) => q.runs[i].runId in ids && id == leaseId
             case Release(ids, id, _) => q.runs[i].runId in ids && id == leaseId)
  {
    hide Filter, Selected;
  }

  // ---------------------------------------------------------------------------
  // Repeated lease and acknowledge
  // ---------------------------------------------------------------------------

  datatype Turn = Turn(leaseId: LeaseId, leasedAt: int, ackedAt: int)

  /** One requester turn: lease a batch and acknowledge it. */
  function AfterTurn(f: Format, runs: seq<Entry>, requester: string, t: Turn): seq<Entry> {
    var ids := Ids(Batch(f, runs, requester, t.leasedAt));
    AckRuns(LeaseRuns(runs, ids, t.leaseId, t.leasedAt), ids, t.leaseId, t.ackedAt)
  }

  function AfterTurns(f: Format, runs: seq<Entry>, requester: string, turns: seq<Turn>): seq<Entry>
    decreases |turns|
  {
    if turns == [] then runs else AfterTurns(f, AfterTurn(f, runs, requester, turns[0]), requester, turns[1..])
  }

  /** The runs handed to the requester, turn by turn. */
  function HandedOut(f: Format, runs: seq<Entry>, requester: string, turns: seq<Turn>): seq<RunId>
    decreases |turns|
  {
    if turns == [] then []
    else
      Ids(Batch(f, runs, requester, turns[0].leasedAt))
      + HandedOut(f, AfterTurn(f, runs, requester, turns[0]), requester, turns[1..])
  }

  /** No lease goes stale between the two times. */
  ghost predicate Agree(runs: seq<Entry>, requester: string, a: int, b: int) {
    forall i :: 0 <= i < |runs| ==> (Eligible(runs[i], requester, a) <==> Eligible(runs[i], requester, b))
  }

  function NotIn(ids: seq<RunId>): Entry -> bool {
    (e: Entry) => e.runId !in ids
  }

  lemma PrefixIsNamed(list: seq<Entry>, n: nat)
    requires DistinctIds(list) && n <= |list|
    ensures forall e :: e in list[..n] ==> !NotIn(Ids(list[..n]))(e)
    ensures forall e :: e in list[n..] ==> NotIn(Ids(list[..n]))(e)
  {
    var prefix, rest := list[..n], list[n..];
    var ids := Ids(prefix);
    forall e | e in prefix ensures e.runId in ids {
      var i :| 0 <= i < |prefix| && prefix[i] == e;
      assert ids[i] == e.runId;
    }
    forall e | e in rest ensures e.runId !in ids {
      var j :| 0 <= j < |rest| && rest[j] == e;
      assert list[n + j] == e;
    }
  }

  lemma DropPrefix(list: seq<Entry>, n: nat)
    requires DistinctIds(list) && n <= |list|
    ensures Filter(list, NotIn(Ids(list[..n]))) == list[n..]
  {
    hide Filter, DistinctIds, Ids;
    var prefix, rest := list[..n], list[n..];
    var p := NotIn(Ids(prefix));
    PrefixIsNamed(list, n);
    assert list == prefix + rest;
    FilterConcat(prefix, rest, p);
    FilterNone(prefix, p);
    FilterAll(rest, p);
  }

  lemma ListingAgrees(f: Format, runs: seq<Entry>, requester: string, a: int, b: int)
    requires Agree(runs, requester, a, b)
    ensures ListPending(f, runs, requester, a) == ListPending(f, runs, requester, b)
  {
    FilterSame(runs, EligibleAt(requester, a), EligibleAt(requester, b));
  }

  /** In a turn exactly the batch is delivered and nothing else changes. */
  lemma TurnChanges(f: Format, runs: seq<Entry>, requester: string, t: Turn, i: nat)
    requires DistinctIds(runs) && i < |runs|
    ensures var after := AfterTurn(f, runs, requester, t);
            && |after| == |runs| && after[i].runId == runs[i].runId
            && (if runs[i].runId in Ids(Batch(f, runs, requester, t.leasedAt)) then IsDelivered(after[i])
                else after[i] == runs[i])
  {
    hide Filter, Selected;
    if runs[i].runId in Ids(Batch(f, runs, requester, t.leasedAt)) {
      BatchIsEligible(f, runs, requester, t.leasedAt, i);
    }
  }

  lemma TurnLeavesTheRest(f: Format, runs: seq<Entry>, requester: string, t: Turn, now: int)
    requires DistinctIds(runs) && Agree(runs, requester, t.leasedAt, now)
    ensures var batch := Batch(f, runs, requester, t.leasedAt);
            var list := ListPending(f, runs, requester, now);
            && DistinctIds(AfterTurn(f, runs, requester, t))
            && |batch| <= |list| && batch == list[..|batch|]
            && (list != [] ==> |batch| > 0)
            && ListPending(f, AfterTurn(f, runs, requester, t), requester, now) == list[|batch|..]
  {
    hide Filter, Sort, Selected;
    var batch, list := Batch(f, runs, requester, t.leasedAt), ListPending(f, runs, requester, now);
    ListingAgrees(f, runs, requester, t.leasedAt, now);
    ListingIsExact(f, runs, requester, now);
    var after, ids := AfterTurn(f, runs, requester, t), Ids(batch);
    var p, order := EligibleAt(requester, now), DeliveryOrder(f.collate);
    var both := (e: Entry) => p(e) && NotIn(ids)(e);
    forall i | 0 <= i < |runs|
      ensures after[i].runId == runs[i].runId
      ensures (p(after[i]) <==> both(runs[i])) && (both(runs[i]) ==> after[i] == runs[i])
    {
      TurnChanges(f, runs, requester, t, i);
    }
    FilterChanged(runs, after, p, both);
    FilterTwice(runs, p, NotIn(ids), both);
    DeliveryOrderIsTotal(f.collate);
    SortThenFilter(Filter(runs, p), NotIn(ids), order);
    DropPrefix(list, |batch|);
  }

  /** After so many turns the first `|out|` listed runs have been handed out and the others are left. */
  ghost predicate Progress(list: seq<Entry>, out: seq<RunId>, left: seq<Entry>, turns: nat) {
    && |out| <= |list| && out == Ids(list[..|out|])
    && left == list[|out|..]
    && (turns <= |out| || left == [])
  }

  lemma ProgressStep(list: seq<Entry>, n: nat, out: seq<RunId>, left: seq<Entry>, turns: nat)
    requires n <= |list| && (list != [] ==> n > 0)
    requires Progress(list[n..], out, left, turns)
    ensures Progress(list, Ids(list[..n]) + out, left, turns + 1)
  {
    var m := |out|;
    assert Ids(list[..n]) + Ids(list[n..][..m]) == Ids(list[..n + m]);
    assert list[n..][m..] == list[n + m..];
  }

  /** As long as no other lease goes stale meanwhile, turns hand out the eligible runs in delivery
      order, each once, at least one a turn, so as many turns as runs deliver all of them. */
  lemma {:induction false} RepeatedTurnsDeliverAll(f: Format, runs: seq<Entry>, requester: string, turns: seq<Turn>, now: int)
    requires DistinctIds(runs)
    requires forall t :: t in turns ==> Agree(runs, requester, t.leasedAt, now)
    ensures Progress(ListPending(f, runs, requester, now), HandedOut(f, runs, requester, turns),
                     ListPending(f, AfterTurns(f, runs, requester, turns), requester, now), |turns|)
    decreases |turns|
  {
    hide ListPending, Batch, Agree, DistinctIds, AfterTurn;
    var list := ListPending(f, runs, requester, now);
    if turns != [] {
      hide Progress;
      var t := turns[0];
      var batch, after := Batch(f, runs, requester, t.leasedAt), AfterTurn(f, runs, requester, t);
      assert t in turns;
      TurnLeavesTheRest(f, runs, requester, t, now);
      forall u | u in turns[1..] ensures Agree(after, requester, u.leasedAt, now) {
        assert u in turns;
        AgreeAfter(f, runs, requester, t, u.leasedAt, now);
      }
      RepeatedTurnsDeliverAll(f, after, requester, turns[1..], now);
      ProgressStep(list, |batch|, HandedOut(f, after, requester, turns[1..]),
                   ListPending(f, AfterTurns(f, after, requester, turns[1..]), requester, now), |turns| - 1);
    }
  }

  lemma AgreeAfter(f: Format, runs: seq<Entry>, requester: string, t: Turn, a: int, b: int)
    requires DistinctIds(runs) && Agree(runs, requester, a, b)
    ensures Agree(AfterTurn(f, runs, requester, t), requester, a, b)
  {
    hide Filter, Sort, Selected;
    var after := AfterTurn(f, runs, requester, t);
    forall i | 0 <= i < |after| ensures Eligible(after[i], requester, a) <==> Eligible(after[i], requester, b) {
      TurnChanges(f, runs, requester, t, i);
    }
  }

  /** The records handed out, turn by turn, as they were when their turn came. */
  function HandedEntries(f: Format, runs: seq<Entry>, requester: string, turns: seq<Turn>): seq<Entry>
    decreases |turns|
  {
    if turns == [] then []
    else
      Batch(f, runs, requester, turns[0].leasedAt)
      + HandedEntries(f, AfterTurn(f, runs, requester, turns[0]), requester, turns[1..])
  }

  /** Time only adds to what is eligible, so the listing of an earlier time is found in that of a later one. */
  lemma EarlierListing(f: Format, runs: seq<Entry>, requester: string, now: int, later: int)
    requires now <= later
    ensures Filter(ListPending(f, runs, requester, later), EligibleAt(requester, now)) == ListPending(f, runs, requester, now)
  {
    hide Filter, Sort;
    var p, q, order := EligibleAt(requester, now), EligibleAt(requester, later), DeliveryOrder(f.collate);
    assert forall e :: p(e) ==> q(e);
    DeliveryOrderIsTotal(f.collate);
    SortThenFilter(Filter(runs, q), p, order);
    FilterTwice(runs, q, p, p);
  }

  lemma FiltersCommute(s: seq<Entry>, p: Entry -> bool, q: Entry -> bool)
    ensures Filter(Filter(s, p), q) == Filter(Filter(s, q), p)
  {
    hide Filter;
    var both := (e: Entry) => p(e) && q(e);
    FilterTwice(s, p, q, both);
    FilterTwice(s, q, p, both);
  }

  /** What is left of the runs eligible at a time after a later turn. */
  lemma LeftAfterTurn(f: Format, runs: seq<Entry>, requester: string, t: Turn, now: int)
    requires DistinctIds(runs)
    ensures ListPending(f, AfterTurn(f, runs, requester, t), requester, now)
         == Filter(ListPending(f, runs, requester, now), NotIn(Ids(Batch(f, runs, requester, t.leasedAt))))
  {
    hide Filter, Sort, Selected;
    var ids, after := Ids(Batch(f, runs, requester, t.leasedAt)), AfterTurn(f, runs, requester, t);
    var p := EligibleAt(requester, now);
    var both := (e: Entry) => p(e) && NotIn(ids)(e);
    forall i | 0 <= i < |runs|
      ensures after[i].runId == runs[i].runId
      ensures (p(after[i]) <==> both(runs[i])) && (both(runs[i]) ==> after[i] == runs[i])
    {
      TurnChanges(f, runs, requester, t, i);
    }
    FilterChanged(runs, after, p, both);
    FilterTwice(runs, p, NotIn(ids), both);
    DeliveryOrderIsTotal(f.collate);
    SortThenFilter(Filter(runs, p), NotIn(ids), DeliveryOrder(f.collate));
  }

  /** A turn hands out the first of the runs eligible at an earlier time, among whatever has become
      eligible since, and leaves the others in order. */
  lemma TurnServesFirst(f: Format, runs: seq<Entry>, requester: string, t: Turn, now: int)
    requires DistinctIds(runs) && now <= t.leasedAt
    ensures var batch := Batch(f, runs, requester, t.leasedAt);
            && ListPending(f, runs, requester, now)
               == Filter(batch, EligibleAt(requester, now)) + ListPending(f, AfterTurn(f, runs, requester, t), requester, now)
            && (ListPending(f, runs, requester, now) != [] ==> batch != [])
  {
    var p, list := EligibleAt(requester, now), ListPending(f, runs, requester, t.leasedAt);
    var batch := Batch(f, runs, requester, t.leasedAt);
    assert batch == list[..|batch|] && (list != [] ==> batch != []);
    ListingIsExact(f, runs, requester, t.leasedAt);
    hide Filter, ListPending, Batch, DistinctIds, AfterTurn, Ids;
    EarlierListing(f, runs, requester, now, t.leasedAt);
    LeftAfterTurn(f, runs, requester, t, now);
    PrefixServed(list, |batch|, p);
  }

  lemma PartServed(prefix: seq<Entry>, rest: seq<Entry>, p: Entry -> bool, q: Entry -> bool)
    requires Filter(prefix + rest, q) == rest
    ensures Filter(prefix + rest, p) == Filter(prefix, p) + Filter(Filter(prefix + rest, p), q)
  {
    hide Filter;
    FiltersCommute(prefix + rest, p, q);
    FilterConcat(prefix, rest, p);
  }

  /** Of the elements kept by a filter, those in a prefix come first and the others follow. */
  lemma PrefixServed(list: seq<Entry>, n: nat, p: Entry -> bool)
    requires DistinctIds(list) && n <= |list|
    ensures Filter(list, p) == Filter(list[..n], p) + Filter(Filter(list, p), NotIn(Ids(list[..n])))
    ensures Filter(list, p) != [] ==> list != []
  {
    DropPrefix(list, n);
    hide Filter, DistinctIds, Ids, NotIn;
    var prefix, rest := list[..n], list[n..];
    assert prefix + rest == list;
    PartServed(prefix, rest, p, NotIn(Ids(prefix)));
  }

  lemma {:induction false} AllHandedAreNew(f: Format, runs: seq<Entry>, requester: string, turns: seq<Turn>)
    requires DistinctIds(runs)
    ensures forall e :: e in HandedEntries(f, runs, requester, turns) ==> e in runs && !IsDelivered(e)
    ensures DistinctIds(HandedEntries(f, runs, requester, turns))
    decreases |turns|
  {
    if turns != [] {
      var t := turns[0];
      var batch, after := Batch(f, runs, requester, t.leasedAt), AfterTurn(f, runs, requester, t);
      BatchIsNew(f, runs, requester, t.leasedAt);
      AfterIsDistinct(f, runs, requester, t);
      hide Batch, AfterTurn, IsDelivered;
      AllHandedAreNew(f, after, requester, turns[1..]);
      var rest := HandedEntries(f, after, requester, turns[1..]);
      forall e | e in rest ensures e in runs && e.runId !in Ids(batch) {
        LaterIsOther(f, runs, requester, t, e);
      }
      var all := batch + rest;
      forall i, j | 0 <= i < j < |all| ensures all[i].runId != all[j].runId {
        if i < |batch| <= j {
          assert all[j] in rest && Ids(batch)[i] == all[i].runId;
        }
      }
    }
  }

  lemma BatchIsNew(f: Format, runs: seq<Entry>, requester: string, now: int)
    requires DistinctIds(runs)
    ensures var batch := Batch(f, runs, requester, now);
            DistinctIds(batch) && forall e :: e in batch ==> e in runs && !IsDelivered(e)
  {
    var list, batch := ListPending(f, runs, requester, now), Batch(f, runs, requester, now);
    ListingIsExact(f, runs, requester, now);
    assert batch == list[..|batch|];
    hide ListPending, Batch;
    forall e | e in batch ensures e in runs && !IsDelivered(e) {
      assert e in list;
    }
  }

  lemma AfterIsDistinct(f: Format, runs: seq<Entry>, requester: string, t: Turn)
    requires DistinctIds(runs)
    ensures DistinctIds(AfterTurn(f, runs, requester, t))
  {
    hide Filter, Selected, ListPending;
  }

  /** What a later turn hands out was not in this turn's batch. */
  lemma LaterIsOther(f: Format, runs: seq<Entry>, requester: string, t: Turn, e: Entry)
    requires DistinctIds(runs) && e in AfterTurn(f, runs, requester, t) && !IsDelivered(e)
    ensures e in runs && e.runId !in Ids(Batch(f, runs, requester, t.leasedAt))
  {
    var after := AfterTurn(f, runs, requester, t);
    var i :| 0 <= i < |after| && after[i] == e;
    assert |after| == |runs|;
    hide AfterTurn, Batch, IsDelivered;
    TurnChanges(f, runs, requester, t, i);
  }

  /** Leases may go stale while turns are taken, adding runs of other holders. Still the runs
      eligible at the start are handed out in delivery order among themselves, each once, followed by
      those left in the same order; nothing at all is handed out twice; every turn hands out at least
      one run while any of them is left; so after more turns than there are runs none is left. */
  lemma {:induction false} TurnsServeAllInOrder(f: Format, runs: seq<Entry>, requester: string, turns: seq<Turn>, now: int)
    requires DistinctIds(runs)
    requires forall t :: t in turns ==> now <= t.leasedAt
    ensures var handed := HandedEntries(f, runs, requester, turns);
            var left := ListPending(f, AfterTurns(f, runs, requester, turns), requester, now);
            && ListPending(f, runs, requester, now) == Filter(handed, EligibleAt(requester, now)) + left
            && (|turns| <= |handed| || left == [])
            && DistinctIds(handed) && (forall e :: e in handed ==> e in runs)
            && (|turns| > |runs| ==> left == [])
    decreases |turns|
  {
    ServedInOrder(f, runs, requester, turns, now);
    AllHandedAreNew(f, runs, requester, turns);
    var handed := HandedEntries(f, runs, requester, turns);
    hide HandedEntries, ListPending, AfterTurns;
    assert NoDup(handed) && NoDup(runs);
    NoDupCount(handed);
    NoDupCount(runs);
    SubsetSize(Elements(handed), Elements(runs));
  }

  lemma {:induction false} ServedInOrder(f: Format, runs: seq<Entry>, requester: string, turns: seq<Turn>, now: int)
    requires DistinctIds(runs)
    requires forall t :: t in turns ==> now <= t.leasedAt
    ensures var handed := HandedEntries(f, runs, requester, turns);
            var left := ListPending(f, AfterTurns(f, runs, requester, turns), requester, now);
            && ListPending(f, runs, requester, now) == Filter(handed, EligibleAt(requester, now)) + left
            && (|turns| <= |handed| || left == [])
    decreases |turns|
  {
    hide ListPending, Batch, AfterTurn, Filter, DistinctIds;
    var p := EligibleAt(requester, now);
    if turns == [] {
      FilterNone([], p);
    } else {
      var t := turns[0];
      var batch, after := Batch(f, runs, requester, t.leasedAt), AfterTurn(f, runs, requester, t);
      assert t in turns;
      TurnServesFirst(f, runs, requester, t, now);
      AfterIsDistinct(f, runs, requester, t);
      ServedInOrder(f, after, requester, turns[1..], now);
      FilterConcat(batch, HandedEntries(f, after, requester, turns[1..]), p);
    }
  }

  // ---------------------------------------------------------------------------
  // The records, updated in place
  // ---------------------------------------------------------------------------

  class SteeringRuns {
    /** In insertion order of the registry's map. */
    var runs: seq<Entry>

    constructor (runs: seq<Entry>)
      ensures this.runs == runs
    {
      this.runs := runs;
    }

    method Find(runId: RunId) returns (k: Option<nat>)
      ensures k.Some? ==> k.value < |runs| && runs[k.value].runId == runId
      ensures k.None? ==> forall i :: 0 <= i < |runs| ==> runs[i].runId != runId
    {
      for i := 0 to |runs|
        invariant forall j :: 0 <= j < i ==> runs[j].runId != runId
      {
        if runs[i].runId == runId {
          return Some(i);
        }
      }
      return None;
    }

    method LeasePending(f: Format, requester: string, leaseId: LeaseId, now: int) returns (ids: seq<RunId>, prompt: Option<Text>)
      requires DistinctIds(runs)
      modifies this
      ensures ids == Ids(Batch(f, old(runs), requester, now))
      ensures runs == LeaseRuns(old(runs), ids, leaseId, now) && DistinctIds(runs)
      ensures prompt == if ids == [] then None else Some(Prompt(f, Batch(f, old(runs), requester, now)))
      ensures TakenFor(old(runs), runs, ids, requester, leaseId, now)
    {
      LeaseIsForRequester(f, runs, requester, leaseId, now);
      LeaseNothing(f, runs, requester, leaseId, now);
      hide TakenFor, LeaseRuns, Ids, DistinctIds, ListPending, Selected;
      var items, text := SelectPromptBoundedItems(f, ListPending(f, runs, requester, now));
      ids := Ids(items);
      prompt := if items == [] then None else Some(text);
      for i := 0 to |ids|
        invariant runs == LeaseRuns(old(runs), ids[..i], leaseId, now)
      {
        var k := Find(ids[i]);
        LeaseOneMore(old(runs), ids, i, leaseId, now, k);
        if k.Some? {
          runs := runs[k.value := LeaseEntry(runs[k.value], leaseId, now)];
        }
      }
      assert ids[..|ids|] == ids;
    }

    method AckLeased(ids: seq<RunId>, leaseId: LeaseId, now: int) returns (updated: nat)
      requires DistinctIds(runs)
      modifies this
      ensures runs == AckRuns(old(runs), ids, leaseId, now) && DistinctIds(runs)
      ensures |runs| == |old(runs)|
      ensures forall i :: 0 <= i < |runs| ==>
                if old(runs)[i].runId in ids && UnderLease(old(runs)[i], leaseId) then DeliveredAs(old(runs)[i], runs[i], now)
                else runs[i] == old(runs)[i]
      ensures updated == |Affected(old(runs), ids, leaseId)|
    {
      hide DistinctIds, Affected, AckRuns;
      AckKeepsIds(runs, ids, leaseId, now);
      AckDelivers(runs, ids, leaseId, now);
      AckNothing(runs, leaseId, now);
      updated := 0;
      CountNone(runs, leaseId);
      for i := 0 to |ids|
        invariant runs == AckRuns(old(runs), ids[..i], leaseId, now)
        invariant updated == |Affected(old(runs), ids[..i], leaseId)|
      {
        var k := Find(ids[i]);
        CountOneMore(old(runs), ids, i, leaseId, k);
        AckOneMore(old(runs), ids, i, leaseId, now, k);
        if k.Some? && Holds(runs[k.value], leaseId) {
          runs := runs[k.value := AckEntry(runs[k.value], leaseId, now)];
          updated := updated + 1;
        }
      }
      assert ids[..|ids|] == ids;
    }

    method ReleaseLeased(ids: seq<RunId>, leaseId: LeaseId, error: Option<string>) returns (updated: nat)
      requires DistinctIds(runs)
      modifies this
      ensures runs == ReleaseRuns(old(runs), ids, leaseId, error) && DistinctIds(runs)
      ensures |runs| == |old(runs)|
      ensures forall i :: 0 <= i < |runs| ==>
                if old(runs)[i].runId in ids && UnderLease(old(runs)[i], leaseId) then ReleasedAs(old(runs)[i], runs[i], error)
                else runs[i] == old(runs)[i]
      ensures updated == |Affected(old(runs), ids, leaseId)|
    {
      hide DistinctIds, Affected, ReleaseRuns;
      ReleaseKeepsIds(runs, ids, leaseId, error);
      ReleaseReturns(runs, ids, leaseId, error);
      ReleaseNothing(runs, leaseId, error);
      updated := 0;
      CountNone(runs, leaseId);
      for i := 0 to |ids|
        invariant runs == ReleaseRuns(old(runs), ids[..i], leaseId, error)
        invariant updated == |Affected(old(runs), ids[..i], leaseId)|
      {
        var k := Find(ids[i]);
        CountOneMore(old(runs), ids, i, leaseId, k);
        ReleaseOneMore(old(runs), ids, i, leaseId, error, k);
        if k.Some? && Holds(runs[k.value], leaseId) {
          runs := runs[k.value := ReleaseEntry(runs[k.value], leaseId, error)];
          updated := updated + 1;
        }
      }
      assert ids[..|ids|] == ids;
    }
  }

  lemma AckOneMore(runs: seq<Entry>, ids: seq<RunId>, i: nat, leaseId: LeaseId, now: int, k: Option<nat>)
    requires DistinctIds(runs) && i < |ids|
    requires k.Some? ==> k.value < |runs| && runs[k.value].runId == ids[i]
    requires k.None? ==> forall j :: 0 <= j < |runs| ==> runs[j].runId != ids[i]
    ensures var sofar, next := AckRuns(runs, ids[..i], leaseId, now), AckRuns(runs, ids[..i + 1], leaseId, now);
            && (k.Some? ==> (Holds(sofar[k.value], leaseId) <==> ids[i] !in ids[..i] && Holds(runs[k.value], leaseId)))
            && next == if k.Some? then sofar[k.value := AckEntry(sofar[k.value], leaseId, now)] else sofar
  {
    assert ids[..i + 1] == ids[..i] + [ids[i]];
  }

  lemma ReleaseOneMore(runs: seq<Entry>, ids: seq<RunId>, i: nat, leaseId: LeaseId, error: Option<string>, k: Option<nat>)
    requires DistinctIds(runs) && i < |ids|
    requires k.Some? ==> k.value < |runs| && runs[k.value].runId == ids[i]
    requires k.None? ==> forall j :: 0 <= j < |runs| ==> runs[j].runId != ids[i]
    ensures var sofar, next := ReleaseRuns(runs, ids[..i], leaseId, error), ReleaseRuns(runs, ids[..i + 1], leaseId, error);
            && (k.Some? ==> (Holds(sofar[k.value], leaseId) <==> ids[i] !in ids[..i] && Holds(runs[k.value], leaseId)))
            && next == if k.Some? then sofar[k.value := ReleaseEntry(sofar[k.value], leaseId, error)] else sofar
  {
    assert ids[..i + 1] == ids[..i] + [ids[i]];
  }

  lemma LeaseOneMore(runs: seq<Entry>, ids: seq<RunId>, i: nat, leaseId: LeaseId, now: int, k: Option<nat>)
    requires DistinctIds(runs) && i < |ids|
    requires k.Some? ==> k.value < |runs| && runs[k.value].runId == ids[i]
    requires k.None? ==> forall j :: 0 <= j < |runs| ==> runs[j].runId != ids[i]
    ensures var sofar, next := LeaseRuns(runs, ids[..i], leaseId, now), LeaseRuns(runs, ids[..i + 1], leaseId, now);
            next == if k.Some? then sofar[k.value := LeaseEntry(sofar[k.value], leaseId, now)] else sofar
  {
    assert ids[..i + 1] == ids[..i] + [ids[i]];
  }

  lemma IdsKept(runs: seq<Entry>, after: seq<Entry>)
    requires DistinctIds(runs) && |after| == |runs|
    requires forall i :: 0 <= i < |runs| ==> after[i].runId == runs[i].runId
    ensures DistinctIds(after)
  {
  }

  lemma AckKeepsIds(runs: seq<Entry>, ids: seq<RunId>, leaseId: LeaseId, now: int)
    requires DistinctIds(runs)
    ensures DistinctIds(AckRuns(runs, ids, leaseId, now))
  {
    IdsKept(runs, AckRuns(runs, ids, leaseId, now));
  }

  lemma ReleaseKeepsIds(runs: seq<Entry>, ids: seq<RunId>, leaseId: LeaseId, error: Option<string>)
    requires DistinctIds(runs)
    ensures DistinctIds(ReleaseRuns(runs, ids, leaseId, error))
  {
    IdsKept(runs, ReleaseRuns(runs, ids, leaseId, error));
  }

  lemma LeaseNothing(f: Format, runs: seq<Entry>, requester: string, leaseId: LeaseId, now: int)
    requires DistinctIds(runs)
    ensures LeaseRuns(runs, [], leaseId, now) == runs
    ensures DistinctIds(LeaseRuns(runs, Ids(Batch(f, runs, requester, now)), leaseId, now))
  {
    hide Batch;
    IdsKept(runs, LeaseRuns(runs, Ids(Batch(f, runs, requester, now)), leaseId, now));
  }

  lemma AckNothing(runs: seq<Entry>, leaseId: LeaseId, now: int)
    ensures AckRuns(runs, [], leaseId, now) == runs
  {
  }

  lemma ReleaseNothing(runs: seq<Entry>, leaseId: LeaseId, error: Option<string>)
    ensures ReleaseRuns(runs, [], leaseId, error) == runs
  {
  }

  lemma CountNone(runs: seq<Entry>, leaseId: LeaseId)
    ensures Affected(runs, [], leaseId) == []
  {
    FilterNone(runs, HeldIn([], leaseId));
  }

  /** One more run id affects one more run, if it is a held run not named before. */
  lemma CountOneMore(runs: seq<Entry>, ids: seq<RunId>, i: nat, leaseId: LeaseId, k: Option<nat>)
    requires DistinctIds(runs) && i < |ids|
    requires k.Some? ==> k.value < |runs| && runs[k.value].runId == ids[i]
    requires k.None? ==> forall j :: 0 <= j < |runs| ==> runs[j].runId != ids[i]
    ensures |Affected(runs, ids[..i + 1], leaseId)| == |Affected(runs, ids[..i], leaseId)|
            + (if k.Some? && ids[i] !in ids[..i] && Holds(runs[k.value], leaseId) then 1 else 0)
  {
    assert ids[..i + 1] == ids[..i] + [ids[i]];
    var p, q := HeldIn(ids[..i], leaseId), HeldIn(ids[..i + 1], leaseId);
    if k.Some? && ids[i] !in ids[..i] && Holds(runs[k.value], leaseId) {
      FilterOneMore(runs, p, q, k.value);
    } else {
      forall e | e in runs ensures p(e) <==> q(e) {
        var j :| 0 <= j < |runs| && runs[j] == e;
      }
      FilterSame(runs, p, q);
    }
  }
}
