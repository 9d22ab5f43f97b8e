/** Leases, the idle sweep and the requester cap of the runtime manager. */
module RequesterCap {
  import opened Base
  import opened Sorting
  import opened PublishedRuntimes
  import RuntimeManager

  // ---------------------------------------------------------------------------
  // Leases
  // ---------------------------------------------------------------------------

  /** `active` is the counter the sweep and the cap read; `released` is the flag of each lease handed out. */
  datatype Leases = Leases(active: nat, released: seq<bool>)

  function Acquire(l: Leases): Leases {
    Leases(l.active + 1, l.released + [false])
  }

  /** A release closure acts once; the counter is clipped at zero. */
  function Release(l: Leases, handle: nat): Leases
    requires handle < |l.released|
  {
    if l.released[handle] then l
    else Leases(if l.active == 0 then 0 else l.active - 1, l.released[handle := true])
  }

  function Outstanding(released: seq<bool>): nat {
    if released == [] then 0
    else Outstanding(released[..|released| - 1]) + (if released[|released| - 1] then 0 else 1)
  }

  lemma {:induction false} OutstandingUpdate(released: seq<bool>, handle: nat)
    requires handle < |released| && !released[handle]
    ensures Outstanding(released) == Outstanding(released[handle := true]) + 1
  {
    var last := |released| - 1;
    if handle == last {
      assert released[handle := true][..last] == released[..last];
    } else {
      assert released[handle := true][..last] == released[..last][handle := true];
      OutstandingUpdate(released[..last], handle);
    }
  }

  datatype LeaseOp = AcquireLease | ReleaseLease(handle: nat)

  function ApplyLeaseOp(l: Leases, op: LeaseOp): Leases {
    match op
    case AcquireLease => Acquire(l)
    case ReleaseLease(handle) => if handle < |l.released| then Release(l, handle) else l
  }

  function ApplyLeaseOps(ops: seq<LeaseOp>): Leases {
    if ops == [] then Leases(0, []) else ApplyLeaseOp(ApplyLeaseOps(ops[..|ops| - 1]), ops[|ops| - 1])
  }

  /** However leases are acquired and released, also repeatedly, the counter is the number of
      leases not released, so the clipping never loses one. */
  lemma {:induction false} CounterCountsLeases(ops: seq<LeaseOp>)
    ensures ApplyLeaseOps(ops).active == Outstanding(ApplyLeaseOps(ops).released)
  {
    if ops != [] {
      var before, op := ApplyLeaseOps(ops[..|ops| - 1]), ops[|ops| - 1];
      CounterCountsLeases(ops[..|ops| - 1]);
      if op.AcquireLease? {
        assert (before.released + [false])[..|before.released|] == before.released;
      } else if op.handle < |before.released| && !before.released[op.handle] {
        OutstandingUpdate(before.released, op.handle);
      }
    }
  }

  // ---------------------------------------------------------------------------
  // The table of published runtimes
  // ---------------------------------------------------------------------------

  const IDLE_TTL_MS: int := 10 * 60 * 1000

  predicate Expired(e: Published, now: int) {
    e.leases == 0 && now - e.lastUsedAt >= IDLE_TTL_MS
  }

  predicate IsRequester(e: Published, session: string) {
    e.session == session && e.key != session
  }

  /** A requester runtime the cap may evict. */
  predicate Evictable(e: Published, session: string, keep: string) {
    IsRequester(e, session) && e.key != keep && e.leases == 0
  }

  function UsedBefore(): (Published, Published) -> bool {
    (a: Published, b: Published) => a.lastUsedAt <= b.lastUsedAt
  }

  function RequesterOf(session: string): Published -> bool {
    (e: Published) => IsRequester(e, session)
  }

  function MayGo(session: string, keep: string): Published -> bool {
    (e: Published) => Evictable(e, session, keep)
  }

  /** Everything but the captured runtime, and that one too while it is leased. */
  function Survives(victim: Published): Published -> bool {
    (e: Published) => e.key != victim.key || e.runtime != victim.runtime || e.leases > 0
  }

  function Requesters(entries: seq<Published>, session: string): seq<Published> {
    Filter(entries, RequesterOf(session))
  }

  /** Evictable runtimes, least recently used first. */
  function Queue(entries: seq<Published>, session: string, keep: string): seq<Published> {
    Sort(Filter(entries, MayGo(session, keep)), UsedBefore())
  }

  /** The runtimes a cap pass evicts: the first of the queue, as many as overflow. */
  function Victims(entries: seq<Published>, session: string, keep: string, cap: nat): (gone: seq<Published>)
    ensures gone <= Queue(entries, session, keep)
  {
    var overflow := |Requesters(entries, session)| - cap;
    var queue := Queue(entries, session, keep);
    if overflow <= 0 then [] else if overflow < |queue| then queue[..overflow] else queue
  }

  function Without(entries: seq<Published>, gone: seq<Published>): seq<Published> {
    Filter(entries, NotIn(gone))
  }

  lemma DistinctIsNoDup(entries: seq<Published>)
    requires DistinctKeys(entries)
    ensures NoDup(entries)
  {
  }

  lemma QueueFacts(entries: seq<Published>, session: string, keep: string)
    requires DistinctKeys(entries)
    ensures var queue := Queue(entries, session, keep);
            NoDup(queue) && Sorted(queue, UsedBefore()) &&
            forall e :: e in queue <==> e in entries && Evictable(e, session, keep)
  {
    var evictable := Filter(entries, MayGo(session, keep));
    DistinctIsNoDup(entries);
    FilterNoDup(entries, MayGo(session, keep));
    SortNoDup(evictable, UsedBefore());
    SortSorted(evictable, UsedBefore());
    SortSameElements(evictable, UsedBefore());
  }

  lemma CountAfter(entries: seq<Published>, gone: seq<Published>, session: string)
    requires DistinctKeys(entries) && NoDup(gone)
    requires forall e :: e in gone ==> e in entries && IsRequester(e, session)
    ensures |Requesters(Without(entries, gone), session)| == |Requesters(entries, session)| - |gone|
  {
    var before, after := Requesters(entries, session), Requesters(Without(entries, gone), session);
    DistinctIsNoDup(entries);
    FilterNoDup(entries, RequesterOf(session));
    FilterNoDup(entries, NotIn(gone));
    FilterNoDup(Without(entries, gone), RequesterOf(session));
    NoDupCount(before);
    NoDupCount(after);
    NoDupCount(gone);
    assert Elements(after) == Elements(before) - Elements(gone);
    assert Elements(gone) <= Elements(before);
  }

  /** What the cap counts: every runtime of the session except the one under the bare session key, each once. */
  lemma RequestersExactly(entries: seq<Published>, session: string)
    requires DistinctKeys(entries)
    ensures var list := Requesters(entries, session);
            NoDup(list) && forall e :: e in list <==> e in entries && e.session == session && e.key != session
  {
    DistinctIsNoDup(entries);
    FilterNoDup(entries, RequesterOf(session));
  }

  /** A cap pass run alone: it evicts only unleased requesters of the session other than the named
      key, least recently used first; it leaves everything else in place; and it ends with exactly
      the cap, or over it with nothing evictable left. */
  lemma CapPassCorrect(entries: seq<Published>, session: string, keep: string, cap: nat)
    requires DistinctKeys(entries)
    ensures var gone := Victims(entries, session, keep, cap);
            var after := Without(entries, gone);
            var before := |Requesters(entries, session)|;
            var left := |Requesters(after, session)|;
            && (forall e :: e in gone ==>
                  e in entries && e.session == session && e.key != session && e.key != keep && e.leases == 0)
            && (forall e :: e in after <==> e in entries && e !in gone)
            && (forall v, e :: (v in gone && e in after && e.session == session && e.key != session && e.key != keep && e.leases == 0) ==>
                  v.lastUsedAt <= e.lastUsedAt)
            && left == before - |gone|
            && (before <= cap ==> gone == [])
            && (before > cap ==> left >= cap)
            && (left > cap ==> forall e :: e in after && e.session == session && e.key != session && e.key != keep ==> e.leases > 0)
  {
    hide Filter, Queue, Requesters, UsedBefore;
    var queue, gone := Queue(entries, session, keep), Victims(entries, session, keep, cap);
    QueueFacts(entries, session, keep);
    assert NoDup(gone) && forall e :: e in gone ==> e in queue;
    VictimsAreOldest(queue, gone);
    CountAfter(entries, gone, session);
  }

  lemma VictimsAreOldest(sorted: seq<Published>, gone: seq<Published>)
    requires Sorted(sorted, UsedBefore()) && gone <= sorted
    ensures forall v, e :: v in gone && e in sorted && e !in gone ==> v.lastUsedAt <= e.lastUsedAt
  {
    forall v, e | v in gone && e in sorted && e !in gone ensures v.lastUsedAt <= e.lastUsedAt {
      var i :| 0 <= i < |gone| && gone[i] == v;
      var j :| 0 <= j < |sorted| && sorted[j] == e;
      assert sorted[i] == v;
      assert j >= |gone|;
      assert UsedBefore()(sorted[i], sorted[j]);
    }
  }

  // ---------------------------------------------------------------------------
  // Removals are steps of the ownership model
  // ---------------------------------------------------------------------------

  function Retirements(gone: seq<Published>): seq<RuntimeManager.Event>
    decreases |gone|
  {
    if gone == [] then [] else [RuntimeManager.RetireKey(gone[0].key)] + Retirements(gone[1..])
  }

  lemma OneRetired(s: RuntimeManager.Store, entries: seq<Published>, e: Published)
    requires RuntimeManager.Inv(s) && s.runtimes == AsMap(entries) && DistinctKeys(entries) && e in entries
    ensures var retire := RuntimeManager.RetireKey(e.key);
            && RuntimeManager.Enabled(s, retire) && RuntimeManager.Inv(RuntimeManager.Step(s, retire))
            && RuntimeManager.Step(s, retire).runtimes == AsMap(Filter(entries, NotIn([e])))
  {
    hide RuntimeManager.Inv;
    AsMapKeys(entries);
    RuntimeManager.StepKeepsInv(s, RuntimeManager.RetireKey(e.key));
    TakeOut(entries, e);
    RemovedFromMap(entries, e.key);
  }

  /** Taking any distinct entries out of the table is a run of the ownership model in which each of
      their keys is retired, so whatever the sweep and the cap remove keeps ownership exact. */
  lemma {:induction false} RemovalsAreRetirements(s: RuntimeManager.Store, entries: seq<Published>, gone: seq<Published>)
    requires RuntimeManager.Inv(s) && s.runtimes == AsMap(entries) && DistinctKeys(entries)
    requires NoDup(gone) && forall e :: e in gone ==> e in entries
    ensures RuntimeManager.CanRun(s, Retirements(gone))
    ensures RuntimeManager.Run(s, Retirements(gone)).runtimes == AsMap(Filter(entries, NotIn(gone)))
    decreases |gone|
  {
    hide RuntimeManager.Inv, RuntimeManager.Step, AsMap;
    if gone == [] {
      FilterAll(entries, NotIn(gone));
    } else {
      var e, others := gone[0], gone[1..];
      var left := Filter(entries, NotIn([e]));
      OneRetired(s, entries, e);
      FilterKeepsKeys(entries, NotIn([e]));
      var t := RuntimeManager.Step(s, RuntimeManager.RetireKey(e.key));
      RemovalsAreRetirements(t, left, others);
      RuntimeManager.RunOne(s, RuntimeManager.RetireKey(e.key), Retirements(others));
      FilterTwice(entries, NotIn([e]), NotIn(others), NotIn(gone));
    }
  }

  /** A cap pass is such a run. */
  lemma CapPassIsRetirements(s: RuntimeManager.Store, entries: seq<Published>, session: string, keep: string, cap: nat)
    requires RuntimeManager.Inv(s) && s.runtimes == AsMap(entries) && DistinctKeys(entries)
    ensures var gone := Victims(entries, session, keep, cap);
            && RuntimeManager.CanRun(s, Retirements(gone))
            && RuntimeManager.Run(s, Retirements(gone)).runtimes == AsMap(Without(entries, gone))
  {
    hide Filter, Queue, AsMap, RuntimeManager.Inv;
    QueueFacts(entries, session, keep);
    RemovalsAreRetirements(s, entries, Victims(entries, session, keep, cap));
  }

  /** And so is an idle sweep. */
  lemma SweepIsRetirements(s: RuntimeManager.Store, entries: seq<Published>, now: int)
    requires RuntimeManager.Inv(s) && s.runtimes == AsMap(entries) && DistinctKeys(entries)
    ensures var expired := Filter(entries, (e: Published) => Expired(e, now));
            && RuntimeManager.CanRun(s, Retirements(expired))
            && RuntimeManager.Run(s, Retirements(expired)).runtimes == AsMap(Filter(entries, (e: Published) => !Expired(e, now)))
  {
    hide AsMap, RuntimeManager.Inv;
    var expired := Filter(entries, (e: Published) => Expired(e, now));
    DistinctIsNoDup(entries);
    FilterNoDup(entries, (e: Published) => Expired(e, now));
    RemovalsAreRetirements(s, entries, expired);
    FilterSame(entries, NotIn(expired), (e: Published) => !Expired(e, now));
  }

  // ---------------------------------------------------------------------------
  // The loops over the table
  // ---------------------------------------------------------------------------

  /** Sessions that lost a runtime and have none left. */
  function Emptied(expired: seq<Published>, kept: seq<Published>): set<string> {
    set e | e in expired && (forall k :: k in kept ==> k.session != e.session) :: e.session
  }

  lemma EmptiedExactly(expired: seq<Published>, kept: seq<Published>)
    ensures forall session :: session in Emptied(expired, kept) <==> HasEntry(expired, session) && !HasEntry(kept, session)
  {
  }

  lemma SweptExactly(entries: seq<Published>, now: int)
    ensures forall e :: e in Filter(entries, (e: Published) => !Expired(e, now)) <==>
              e in entries && (e.leases > 0 || now - e.lastUsedAt < 600000)
    ensures forall e :: e in Filter(entries, (e: Published) => Expired(e, now)) <==>
              e in entries && e.leases == 0 && now - e.lastUsedAt >= 600000
  {
  }

  predicate HasEntry(entries: seq<Published>, session: string) {
    exists e :: e in entries && e.session == session
  }

  class RuntimeTable {
    var entries: seq<Published>
    var deferredRetirement: set<string>
    var sessionIdBySessionKey: map<string, string>

    constructor ()
      ensures entries == [] && deferredRetirement == {} && sessionIdBySessionKey == map[]
    {
      entries, deferredRetirement, sessionIdBySessionKey := [], {}, map[];
    }

    /** Removes exactly the unleased runtimes idle for the whole TTL, and forgets the sessions this empties. */
    method SweepIdleRuntimes(now: int) returns (expired: seq<Published>)
      modifies this
      ensures entries == Filter(old(entries), (e: Published) => !Expired(e, now))
      ensures expired == Filter(old(entries), (e: Published) => Expired(e, now))
      ensures deferredRetirement == old(deferredRetirement) - Emptied(expired, entries)
      ensures sessionIdBySessionKey ==
              map k | k in old(sessionIdBySessionKey) && old(sessionIdBySessionKey)[k] !in Emptied(expired, entries)
                :: old(sessionIdBySessionKey)[k]
      ensures forall e :: e in entries <==> e in old(entries) && (e.leases > 0 || now - e.lastUsedAt < 600000)
      ensures forall e :: e in expired <==> e in old(entries) && e.leases == 0 && now - e.lastUsedAt >= 600000
      ensures forall session :: session in old(deferredRetirement) ==>
                (session !in deferredRetirement <==> HasEntry(expired, session) && !HasEntry(entries, session))
      ensures forall k :: k in old(sessionIdBySessionKey) ==>
                (k !in sessionIdBySessionKey <==>
                  HasEntry(expired, old(sessionIdBySessionKey)[k]) && !HasEntry(entries, old(sessionIdBySessionKey)[k]))
    {
      var all := entries;
      var kept: seq<Published> := [];
      expired := [];
      for i := 0 to |all|
        invariant kept == Filter(all[..i], (e: Published) => !Expired(e, now))
        invariant expired == Filter(all[..i], (e: Published) => Expired(e, now))
        invariant deferredRetirement == old(deferredRetirement)
        invariant sessionIdBySessionKey == old(sessionIdBySessionKey)
      {
        FilterPrefix(all, i, (e: Published) => !Expired(e, now));
        FilterPrefix(all, i, (e: Published) => Expired(e, now));
        var e := all[i];
        if e.leases > 0 || now - e.lastUsedAt < IDLE_TTL_MS {
          kept := kept + [e];
        } else {
          expired := expired + [e];
        }
      }
      assert all[..|all|] == all;
      entries := kept;
      SweptExactly(all, now);
      EmptiedExactly(expired, entries);
      hide Filter, Expired, Emptied, HasEntry;
      var gone := Emptied(expired, entries);
      deferredRetirement := deferredRetirement - gone;
      var names := sessionIdBySessionKey;
      sessionIdBySessionKey := map k | k in names && names[k] !in gone :: names[k];
    }

    /** The guarded removal inside the exclusive section: only the captured runtime, and only unleased. */
    method EvictIfIdle(victim: Published)
      modifies this`entries
      ensures entries == Filter(old(entries), Survives(victim))
      ensures forall e :: e in entries <==>
                e in old(entries) && !(e.key == victim.key && e.runtime == victim.runtime && e.leases == 0)
    {
      var all := entries;
      var kept: seq<Published> := [];
      for i := 0 to |all|
        invariant kept == Filter(all[..i], Survives(victim))
        invariant entries == old(entries)
      {
        FilterPrefix(all, i, Survives(victim));
        if all[i].key != victim.key || all[i].runtime != victim.runtime || all[i].leases > 0 {
          kept := kept + [all[i]];
        }
      }
      assert all[..|all|] == all;
      entries := kept;
    }

    method EnforceRequesterRuntimeCap(session: string, keep: string, cap: nat)
      requires DistinctKeys(entries)
      modifies this`entries
      ensures entries == Without(old(entries), Victims(old(entries), session, keep, cap))
      ensures DistinctKeys(entries)
    {
      hide Filter, Queue, Survives;
      var all := entries;
      var overflow := |Requesters(all, session)| - cap;
      var queue := Queue(all, session, keep);
      var victims := if overflow <= 0 then [] else if overflow < |queue| then queue[..overflow] else queue;
      QueueFacts(all, session, keep);
      FilterKeepsKeys(all, NotIn(victims));
      FilterAll(all, NotIn(victims[..0]));
      for i := 0 to |victims|
        invariant entries == Without(all, victims[..i])
      {
        assert victims[i] in queue;
        EvictIfIdle(victims[i]);
        WithoutOneMore(all, victims, i);
      }
      assert victims[..|victims|] == victims;
    }
  }

  lemma KeyFindsVictim(all: seq<Published>, v: Published, e: Published)
    requires DistinctKeys(all) && v in all && e in all && v.leases == 0
    ensures Survives(v)(e) <==> e != v
  {
    var a :| 0 <= a < |all| && all[a] == e;
    var b :| 0 <= b < |all| && all[b] == v;
    assert a != b ==> all[a].key != all[b].key;
  }

  /** Evicting the next victim, found again by key and runtime, removes exactly that entry. */
  lemma WithoutOneMore(all: seq<Published>, victims: seq<Published>, i: nat)
    requires DistinctKeys(all) && i < |victims| && victims[i] in all && victims[i].leases == 0
    ensures Filter(Without(all, victims[..i]), Survives(victims[i])) == Without(all, victims[..i + 1])
  {
    hide Filter, Survives, DistinctKeys;
    var v, earlier, more := victims[i], victims[..i], victims[..i + 1];
    var both := (e: Published) => NotIn(earlier)(e) && Survives(v)(e);
    FilterTwice(all, NotIn(earlier), Survives(v), both);
    assert more == earlier + [v];
    forall e | e in all ensures both(e) <==> NotIn(more)(e) {
      KeyFindsVictim(all, v, e);
    }
    FilterSame(all, both, NotIn(more));
  }
}
