/** The session MCP runtime manager: creation claims, publication and teardown of runtimes.
    Every step is one uninterrupted stretch of code between two awaits. */
module RuntimeManager {
  import opened Base

  type Key = string
  /** Workspace, agent directory and configuration fingerprint: what reuse compares. */
  type Identity = string

  /** Where a creation stands. `Settled` is a settled promise whose `finally` has not run. */
  datatype Phase =
    | Start(existing: Option<nat>)
    | DisposingExisting
    | AwaitingPrevious
    | Creating
    | Holding(runtime: nat)
    | DisposingOwn
    | Settled(published: Option<nat>)
    | Done

  datatype Producer = Producer(key: Key, identity: Identity, previous: Option<nat>, phase: Phase)

  /** `producer` is history: the creation a runtime came out of. */
  datatype Origin = Origin(key: Key, identity: Identity, producer: nat)

  /** Where a runtime can be. */
  datatype Place = HeldBy(producer: nat) | PublishedAt(key: Key) | HandedToDispose

  /** `runtimes` and `claims` are the two maps of the store; producers and runtimes are numbered
      in creation order. `disposed` counts dispose calls; `place` records the history of each runtime. */
  datatype Store = Store(
    runtimes: map<Key, nat>,
    claims: map<Key, nat>,
    producers: seq<Producer>,
    created: seq<Origin>,
    disposed: multiset<nat>,
    place: seq<Place>)

  const EMPTY: Store := Store(map[], map[], [], [], multiset{}, [])

  function Lookup<T>(m: map<Key, T>, key: Key): Option<T> {
    if key in m then Some(m[key]) else None
  }

  predicate Unsettled(phase: Phase) {
    !phase.Settled? && !phase.Done?
  }

  predicate IsCurrent(s: Store, p: nat)
    requires p < |s.producers|
  {
    Lookup(s.claims, s.producers[p].key) == Some(p)
  }

  // ---------------------------------------------------------------------------
  // Steps
  // ---------------------------------------------------------------------------

  function SetPhase(s: Store, p: nat, phase: Phase): Store
    requires p < |s.producers|
  {
    s.(producers := s.producers[p := s.producers[p].(phase := phase)])
  }

  function Dispose(s: Store, runtime: nat): Store
    requires runtime < |s.place|
  {
    s.(disposed := s.disposed + multiset{runtime}, place := s.place[runtime := HandedToDispose])
  }

  /** Neither a matching claim nor, without a claim, a matching runtime: a new claim is needed. */
  predicate MustCreate(s: Store, key: Key, identity: Identity)
    requires key in s.claims ==> s.claims[key] < |s.producers|
    requires key in s.runtimes ==> s.runtimes[key] < |s.created|
  {
    if key in s.claims then s.producers[s.claims[key]].identity != identity
    else key in s.runtimes ==> s.created[s.runtimes[key]].identity != identity
  }

  /** Takes over the key: unpublishes what is there and claims the creation. */
  function Claim(s: Store, key: Key, identity: Identity): Store
    requires key in s.runtimes ==> s.runtimes[key] < |s.place|
  {
    var existing := Lookup(s.runtimes, key);
    var p := |s.producers|;
    s.(runtimes := s.runtimes - {key},
       claims := s.claims[key := p],
       producers := s.producers + [Producer(key, identity, Lookup(s.claims, key), Start(existing))],
       place := if existing.Some? then s.place[existing.value := HeldBy(p)] else s.place)
  }

  /** Unpublishes the runtime of a key and disposes it: idle sweep, cap eviction, requester replacement. */
  function Retire(s: Store, key: Key): Store
    requires key in s.runtimes && s.runtimes[key] < |s.place|
  {
    Dispose(s.(runtimes := s.runtimes - {key}), s.runtimes[key])
  }

  function DisposeKey(s: Store, key: Key): Store
    requires key in s.runtimes ==> s.runtimes[key] < |s.place|
  {
    var revoked := s.(claims := s.claims - {key});
    if key in s.runtimes then Retire(revoked, key) else revoked
  }

  function DisposeExisting(s: Store, p: nat): Store
    requires p < |s.producers| && s.producers[p].phase.Start?
    requires s.producers[p].phase.existing.Some? ==> s.producers[p].phase.existing.value < |s.place|
  {
    var existing := s.producers[p].phase.existing;
    if existing.Some? then SetPhase(Dispose(s, existing.value), p, DisposingExisting)
    else SetPhase(s, p, AwaitingPrevious)
  }

  function BeginCreate(s: Store, p: nat): Store
    requires p < |s.producers|
  {
    SetPhase(s, p, if IsCurrent(s, p) then Creating else Settled(None))
  }

  function FinishCreate(s: Store, p: nat): Store
    requires p < |s.producers|
  {
    var runtime := |s.created|;
    SetPhase(s.(created := s.created + [Origin(s.producers[p].key, s.producers[p].identity, p)],
                place := s.place + [HeldBy(p)]),
             p, Holding(runtime))
  }

  /** The check after creation: the claim holder publishes, anyone else disposes its own result. */
  function Resolve(s: Store, p: nat): Store
    requires p < |s.producers| && s.producers[p].phase.Holding? && s.producers[p].phase.runtime < |s.place|
  {
    var runtime, key := s.producers[p].phase.runtime, s.producers[p].key;
    if IsCurrent(s, p) then
      SetPhase(s.(runtimes := s.runtimes[key := runtime], place := s.place[runtime := PublishedAt(key)]),
               p, Settled(Some(runtime)))
    else SetPhase(Dispose(s, runtime), p, DisposingOwn)
  }

  function Cleanup(s: Store, p: nat): Store
    requires p < |s.producers|
  {
    var done := SetPhase(s, p, Done);
    if IsCurrent(s, p) then done.(claims := s.claims - {s.producers[p].key}) else done
  }

  datatype Event =
    | GetOrCreate(key: Key, identity: Identity)
    | RetireKey(key: Key)
    | DisposeKeyNow(key: Key)
    | Begin(p: nat)
    | ExistingDisposed(p: nat, ok: bool)
    | PreviousSettled(p: nat)
    | CreateSettled(p: nat, ok: bool)
    | Continue(p: nat)
    | OwnDisposed(p: nat)
    | Finally(p: nat)

  predicate IsProducerEvent(e: Event) {
    !e.GetOrCreate? && !e.RetireKey? && !e.DisposeKeyNow?
  }

  function PhaseOf(s: Store, p: nat): Phase {
    if p < |s.producers| then s.producers[p].phase else Done
  }

  /** The step can happen now. A producer waits for the one it replaced. */
  predicate Enabled(s: Store, e: Event) {
    match e
    case GetOrCreate(_, _) => true
    case RetireKey(key) => key in s.runtimes
    case DisposeKeyNow(_) => true
    case Begin(p) => PhaseOf(s, p).Start?
    case ExistingDisposed(p, _) => PhaseOf(s, p).DisposingExisting?
    case PreviousSettled(p) =>
      PhaseOf(s, p).AwaitingPrevious? &&
      (s.producers[p].previous.Some? ==> !Unsettled(PhaseOf(s, s.producers[p].previous.value)))
    case CreateSettled(p, _) => PhaseOf(s, p).Creating?
    case Continue(p) => PhaseOf(s, p).Holding?
    case OwnDisposed(p) => PhaseOf(s, p).DisposingOwn?
    case Finally(p) => PhaseOf(s, p).Settled?
  }

  function Step(s: Store, e: Event): Store
    requires Inv(s) && Enabled(s, e)
  {
    match e
    case GetOrCreate(key, identity) => if MustCreate(s, key, identity) then Claim(s, key, identity) else s
    case RetireKey(key) => Retire(s, key)
    case DisposeKeyNow(key) => DisposeKey(s, key)
    case Begin(p) =>
      assert s.producers[p].phase.existing.Some? ==> Holds(s, HeldBy(p), s.producers[p].phase.existing.value);
      DisposeExisting(s, p)
    case ExistingDisposed(p, ok) => SetPhase(s, p, if ok then AwaitingPrevious else Settled(None))
    case PreviousSettled(p) => BeginCreate(s, p)
    case CreateSettled(p, ok) => if ok then FinishCreate(s, p) else SetPhase(s, p, Settled(None))
    case Continue(p) =>
      assert Holds(s, HeldBy(p), s.producers[p].phase.runtime);
      Resolve(s, p)
    case OwnDisposed(p) => SetPhase(s, p, Settled(None))
    case Finally(p) => Cleanup(s, p)
  }

  // ---------------------------------------------------------------------------
  // Ownership
  // ---------------------------------------------------------------------------

  /** The runtime is at the place, read off the maps and the producers. */
  ghost predicate Holds(s: Store, at: Place, runtime: nat) {
    match at
    case HeldBy(p) => PhaseOf(s, p) == Start(Some(runtime)) || PhaseOf(s, p) == Holding(runtime)
    case PublishedAt(key) => key in s.runtimes && s.runtimes[key] == runtime
    case HandedToDispose => runtime in s.disposed
  }

  ghost predicate ClaimsSound(s: Store) {
    && (forall k :: k in s.claims ==>
          && s.claims[k] < |s.producers|
          && s.producers[s.claims[k]].key == k
          && !s.producers[s.claims[k]].phase.Done?)
    && (forall k :: k in s.claims && k in s.runtimes ==> PhaseOf(s, s.claims[k]) == Settled(Some(s.runtimes[k])))
  }

  /** A producer waits only for an earlier one of its key. */
  ghost predicate ChainSound(producers: seq<Producer>) {
    forall p :: 0 <= p < |producers| && producers[p].previous.Some? ==>
      && producers[p].previous.value < p
      && producers[producers[p].previous.value].key == producers[p].key
  }

  ghost predicate PlacesSound(s: Store) {
    && |s.place| == |s.created|
    && (forall at, r: nat :: Holds(s, at, r) <==> r < |s.place| && s.place[r] == at)
    && (forall r: nat :: s.disposed[r] <= 1)
    && (forall r: nat :: r < |s.place| ==>
          match s.place[r]
          case HeldBy(p) => p < |s.producers| && s.producers[p].key == s.created[r].key
          case PublishedAt(k) => k == s.created[r].key
          case HandedToDispose => true)
  }

  ghost predicate Inv(s: Store) {
    && PlacesSound(s)
    && ClaimsSound(s)
    && ChainSound(s.producers)
    && (forall k :: k in s.runtimes ==> Holds(s, PublishedAt(k), s.runtimes[k]) && s.runtimes[k] < |s.created|)
  }

  /** The runtime a producer holds. */
  function HeldIn(phase: Phase): Option<nat> {
    match phase
    case Start(existing) => existing
    case Holding(runtime) => Some(runtime)
    case _ => None
  }

  /** Steps that move no runtime keep every place. */
  lemma SamePlaces(s: Store, t: Store)
    requires PlacesSound(s)
    requires t.runtimes == s.runtimes && t.created == s.created && t.disposed == s.disposed && t.place == s.place
    requires |t.producers| == |s.producers|
    requires forall p :: 0 <= p < |s.producers| ==>
      t.producers[p].key == s.producers[p].key && HeldIn(t.producers[p].phase) == HeldIn(s.producers[p].phase)
    ensures PlacesSound(t)
    ensures forall k :: k in s.runtimes && Holds(s, PublishedAt(k), s.runtimes[k]) ==> Holds(t, PublishedAt(k), t.runtimes[k])
  {
    assert forall at, r: nat :: Holds(t, at, r) <==> Holds(s, at, r);
  }

  lemma ChainKept(producers: seq<Producer>, p: nat, phase: Phase)
    requires ChainSound(producers) && p < |producers|
    ensures ChainSound(producers[p := producers[p].(phase := phase)])
  {
  }

  /** Changing a phase that holds nothing into another that holds nothing. */
  lemma PhaseChangeKeepsInv(s: Store, p: nat, phase: Phase)
    requires Inv(s) && p < |s.producers|
    requires HeldIn(s.producers[p].phase).None? && !s.producers[p].phase.Settled?
    requires HeldIn(phase).None? && !phase.Done?
    ensures Inv(SetPhase(s, p, phase))
  {
    SamePlaces(s, SetPhase(s, p, phase));
    ChainKept(s.producers, p, phase);
    hide PlacesSound, Holds, ChainSound;
  }

  lemma ClaimPlaces(s: Store, key: Key, identity: Identity)
    requires PlacesSound(s)
    requires key in s.runtimes ==> s.runtimes[key] < |s.place|
    ensures PlacesSound(Claim(s, key, identity))
  {
    var t := Claim(s, key, identity);
    assert key in s.runtimes ==> Holds(s, PublishedAt(key), s.runtimes[key]);
    forall at, r: nat ensures Holds(t, at, r) <==> r < |t.place| && t.place[r] == at {
      assert Holds(s, at, r) <==> r < |s.place| && s.place[r] == at;
    }
  }

  lemma ClaimClaims(s: Store, key: Key, identity: Identity)
    requires ClaimsSound(s) && ChainSound(s.producers)
    requires key in s.runtimes ==> s.runtimes[key] < |s.place|
    ensures ClaimsSound(Claim(s, key, identity)) && ChainSound(Claim(s, key, identity).producers)
  {
  }

  lemma ClaimKeepsInv(s: Store, key: Key, identity: Identity)
    requires Inv(s)
    ensures Inv(Claim(s, key, identity))
  {
    ClaimPlaces(s, key, identity);
    ClaimClaims(s, key, identity);
    hide PlacesSound, ClaimsSound, ChainSound;
  }

  lemma RetireKeepsInv(s: Store, key: Key)
    requires Inv(s) && key in s.runtimes
    ensures Inv(Retire(s, key))
  {
    var t := Retire(s, key);
    assert Holds(s, PublishedAt(key), s.runtimes[key]);
    assert !Holds(s, HandedToDispose, s.runtimes[key]);
    forall at, r: nat ensures Holds(t, at, r) <==> r < |t.place| && t.place[r] == at {
      assert Holds(s, at, r) <==> r < |s.place| && s.place[r] == at;
    }
  }

  lemma DisposeKeyKeepsInv(s: Store, key: Key)
    requires Inv(s)
    ensures Inv(DisposeKey(s, key))
  {
    var revoked := s.(claims := s.claims - {key});
    SamePlaces(s, revoked);
    hide PlacesSound, Holds;
    if key in s.runtimes {
      RetireKeepsInv(revoked, key);
    }
  }

  /** A producer hands the runtime it holds to dispose. */
  lemma DisposeHeldKeepsInv(s: Store, p: nat, runtime: nat, phase: Phase)
    requires Inv(s) && p < |s.producers| && HeldIn(s.producers[p].phase) == Some(runtime)
    requires runtime < |s.place| && HeldIn(phase).None? && !phase.Done?
    ensures Inv(SetPhase(Dispose(s, runtime), p, phase))
  {
    var t := SetPhase(Dispose(s, runtime), p, phase);
    ChainKept(s.producers, p, phase);
    hide ChainSound;
    assert Holds(s, HeldBy(p), runtime);
    assert !Holds(s, HandedToDispose, runtime);
    assert PlacesSound(t) by {
      forall at, r: nat ensures Holds(t, at, r) <==> r < |t.place| && t.place[r] == at {
        assert Holds(s, at, r) <==> r < |s.place| && s.place[r] == at;
      }
    }
    assert ClaimsSound(t) by {
      hide PlacesSound, Holds;
    }
  }

  lemma BeginKeepsInv(s: Store, p: nat)
    requires Inv(s) && PhaseOf(s, p).Start?
    ensures Inv(Step(s, Begin(p)))
  {
    var existing := s.producers[p].phase.existing;
    if existing.None? {
      PhaseChangeKeepsInv(s, p, AwaitingPrevious);
    } else {
      assert Holds(s, HeldBy(p), existing.value);
      DisposeHeldKeepsInv(s, p, existing.value, DisposingExisting);
    }
  }

  lemma FinishCreateKeepsInv(s: Store, p: nat)
    requires Inv(s) && PhaseOf(s, p).Creating?
    ensures Inv(FinishCreate(s, p))
  {
    var t := FinishCreate(s, p);
    forall at, r: nat ensures Holds(t, at, r) <==> r < |t.place| && t.place[r] == at {
      assert Holds(s, at, r) <==> r < |s.place| && s.place[r] == at;
    }
  }

  lemma PublishKeepsInv(s: Store, p: nat)
    requires Inv(s) && PhaseOf(s, p).Holding? && IsCurrent(s, p)
    ensures Inv(Step(s, Continue(p)))
  {
    var t := Step(s, Continue(p));
    var runtime, key := s.producers[p].phase.runtime, s.producers[p].key;
    ChainKept(s.producers, p, Settled(Some(runtime)));
    hide ChainSound;
    assert Holds(s, HeldBy(p), runtime);
    assert key !in s.runtimes;
    assert PlacesSound(t) by {
      forall at, r: nat ensures Holds(t, at, r) <==> r < |t.place| && t.place[r] == at {
        assert Holds(s, at, r) <==> r < |s.place| && s.place[r] == at;
      }
    }
    assert ClaimsSound(t) by {
      hide PlacesSound, Holds;
    }
  }

  lemma ResolveKeepsInv(s: Store, p: nat)
    requires Inv(s) && PhaseOf(s, p).Holding?
    ensures Inv(Step(s, Continue(p)))
  {
    var runtime := s.producers[p].phase.runtime;
    assert Holds(s, HeldBy(p), runtime);
    if IsCurrent(s, p) {
      PublishKeepsInv(s, p);
    } else {
      DisposeHeldKeepsInv(s, p, runtime, DisposingOwn);
    }
  }

  lemma CleanupClaims(s: Store, p: nat)
    requires ClaimsSound(s) && PhaseOf(s, p).Settled?
    ensures ClaimsSound(Cleanup(s, p))
  {
    var t := Cleanup(s, p);
    assert forall k :: k in t.claims ==> k in s.claims && t.claims[k] == s.claims[k] && t.claims[k] != p;
  }

  lemma CleanupKeepsInv(s: Store, p: nat)
    requires Inv(s) && PhaseOf(s, p).Settled?
    ensures Inv(Cleanup(s, p))
  {
    hide PlacesSound, Holds, ChainSound, ClaimsSound;
    SamePlaces(s, Cleanup(s, p));
    ChainKept(s.producers, p, Done);
    CleanupClaims(s, p);
  }

  lemma StepKeepsInv(s: Store, e: Event)
    requires Inv(s) && Enabled(s, e)
    ensures Inv(Step(s, e))
  {
    hide Holds, PlacesSound;
    match e
    case GetOrCreate(key, identity) => if MustCreate(s, key, identity) { ClaimKeepsInv(s, key, identity); }
    case RetireKey(key) => RetireKeepsInv(s, key);
    case DisposeKeyNow(key) => DisposeKeyKeepsInv(s, key);
    case Begin(p) => BeginKeepsInv(s, p);
    case ExistingDisposed(p, ok) => PhaseChangeKeepsInv(s, p, if ok then AwaitingPrevious else Settled(None));
    case PreviousSettled(p) => PhaseChangeKeepsInv(s, p, if IsCurrent(s, p) then Creating else Settled(None));
    case CreateSettled(p, ok) =>
      if ok { FinishCreateKeepsInv(s, p); } else { PhaseChangeKeepsInv(s, p, Settled(None)); }
    case Continue(p) => ResolveKeepsInv(s, p);
    case OwnDisposed(p) => PhaseChangeKeepsInv(s, p, Settled(None));
    case Finally(p) => CleanupKeepsInv(s, p);
  }

  // ---------------------------------------------------------------------------
  // Whole runs
  // ---------------------------------------------------------------------------

  ghost predicate CanRun(s: Store, events: seq<Event>)
    requires Inv(s)
    decreases |events|
  {
    if events == [] then true
    else
      Enabled(s, events[0]) &&
      (StepKeepsInv(s, events[0]);
       CanRun(Step(s, events[0]), events[1..]))
  }

  ghost function Run(s: Store, events: seq<Event>): (t: Store)
    requires Inv(s) && CanRun(s, events)
    ensures Inv(t)
    decreases |events|
  {
    if events == [] then s
    else
      StepKeepsInv(s, events[0]);
      Run(Step(s, events[0]), events[1..])
  }

  lemma EmptyInv()
    ensures Inv(EMPTY)
  {
  }

  /** In every reachable state each runtime ever created is in exactly one place, and
      has been handed to dispose at most once. */
  lemma ExactlyOnePlace(events: seq<Event>, r: nat)
    requires Inv(EMPTY) && CanRun(EMPTY, events) && r < |Run(EMPTY, events).created|
    ensures var t := Run(EMPTY, events);
            && (exists at :: Holds(t, at, r) && forall other :: Holds(t, other, r) ==> other == at)
            && t.disposed[r] <= 1
  {
    var t := Run(EMPTY, events);
    assert Holds(t, t.place[r], r);
  }

  /** Only the claim holder publishes, on an empty key; an obsolete producer disposes its own
      runtime and touches neither map. */
  lemma PublicationIsExclusive(s: Store, p: nat)
    requires Inv(s) && Enabled(s, Continue(p))
    ensures var t, key, runtime := Step(s, Continue(p)), s.producers[p].key, s.producers[p].phase.runtime;
            if IsCurrent(s, p) then
              && key !in s.runtimes
              && t.runtimes == s.runtimes[key := runtime]
              && t.claims == s.claims
              && t.disposed == s.disposed
            else
              && t.runtimes == s.runtimes
              && t.claims == s.claims
              && t.disposed == s.disposed + multiset{runtime}
  {
  }

  /** The step is taken by producer `p`. */
  predicate TakenBy(e: Event, p: nat) {
    IsProducerEvent(e) && e.p == p
  }

  /** No step of an obsolete producer changes what is published or claimed. */
  lemma ObsoleteIsHarmless(s: Store, e: Event, p: nat)
    requires Inv(s) && Enabled(s, e) && TakenBy(e, p) && !IsCurrent(s, p)
    ensures Step(s, e).runtimes == s.runtimes && Step(s, e).claims == s.claims
  {
    hide Inv, Holds;
  }

  lemma ProducerKeepsClaims(s: Store, e: Event)
    requires Inv(s) && Enabled(s, e) && IsProducerEvent(e) && !e.Finally?
    ensures Step(s, e).claims == s.claims
  {
    hide Inv, Holds;
  }

  lemma ProducerClaimsOnlyRemoved(s: Store, e: Event)
    requires Inv(s) && Enabled(s, e) && IsProducerEvent(e)
    ensures var t := Step(s, e);
            && |t.producers| == |s.producers|
            && (forall p :: 0 <= p < |s.producers| ==> t.producers[p].key == s.producers[p].key)
            && (forall k :: k in t.claims ==> k in s.claims && t.claims[k] == s.claims[k])
  {
    ProducerStepChangesOne(s, e);
    if !e.Finally? {
      hide Inv, Step, Enabled;
      ProducerKeepsClaims(s, e);
    } else {
      hide Inv, Holds;
    }
  }

  lemma LostClaimNotRegained(s: Store, e: Event, p: nat)
    requires Inv(s) && Enabled(s, e) && p < |s.producers| && !IsCurrent(s, p)
    ensures p < |Step(s, e).producers| && !IsCurrent(Step(s, e), p)
    ensures Step(s, e).producers[p].key == s.producers[p].key
  {
    hide Inv, Holds;
    if IsProducerEvent(e) {
      hide Step, Enabled;
      ProducerClaimsOnlyRemoved(s, e);
    }
  }

  /** A claim once lost is never regained, so obsolescence is final. */
  lemma {:induction false} LostClaimStaysLost(s: Store, events: seq<Event>, p: nat)
    requires Inv(s) && CanRun(s, events) && p < |s.producers| && !IsCurrent(s, p)
    ensures p < |Run(s, events).producers| && !IsCurrent(Run(s, events), p)
    ensures Run(s, events).producers[p].key == s.producers[p].key
    decreases |events|
  {
    if events != [] {
      hide Inv;
      var t := Step(s, events[0]);
      LostClaimNotRegained(s, events[0], p);
      StepKeepsInv(s, events[0]);
      LostClaimStaysLost(t, events[1..], p);
    }
  }

  // ---------------------------------------------------------------------------
  // What a request gets
  // ---------------------------------------------------------------------------

  /** The key is served for this identity: its claim is by such a producer, or, without a claim, its
      published runtime was made for it. */
  ghost predicate ServedFor(s: Store, key: Key, identity: Identity) {
    if key in s.claims then
      s.claims[key] < |s.producers| && s.producers[s.claims[key]].key == key && s.producers[s.claims[key]].identity == identity
    else
      key in s.runtimes && s.runtimes[key] < |s.created|
      && s.created[s.runtimes[key]].key == key && s.created[s.runtimes[key]].identity == identity
  }

  /** A request leaves its key served for the identity it asks for. It changes nothing exactly when
      the key already was; otherwise a new producer of that identity takes over the claim and the runtime. */
  lemma RequestServesIdentity(s: Store, key: Key, identity: Identity)
    requires Inv(s)
    ensures var t := Step(s, GetOrCreate(key, identity));
            && ServedFor(t, key, identity)
            && (t == s <==> ServedFor(s, key, identity))
            && (!ServedFor(s, key, identity) ==>
                  && key !in t.runtimes && key in t.claims && t.claims[key] == |s.producers|
                  && t.producers == s.producers + [Producer(key, identity, Lookup(s.claims, key), Start(Lookup(s.runtimes, key)))])
  {
    assert key in s.runtimes ==> Holds(s, PublishedAt(key), s.runtimes[key]);
    hide Holds;
    var t := Step(s, GetOrCreate(key, identity));
    assert t != s ==> |t.producers| == |s.producers| + 1;
  }

  /** In every reachable state a published runtime was made for its key and its maker's identity. */
  lemma PublishedForItsMaker(events: seq<Event>, key: Key)
    requires Inv(EMPTY) && CanRun(EMPTY, events) && key in Run(EMPTY, events).runtimes
    ensures var t := Run(EMPTY, events);
            && t.runtimes[key] < |t.created| && t.created[t.runtimes[key]].key == key
            && var p := t.created[t.runtimes[key]].producer;
               p < |t.producers| && t.producers[p].key == key && t.producers[p].identity == t.created[t.runtimes[key]].identity
  {
    RunKeepsLineage(EMPTY, events);
  }

  /** How a producer's failures and a lost claim end it: without a runtime. */
  lemma ProducerEndsEmpty(s: Store, p: nat)
    requires Inv(s) && p < |s.producers|
    ensures PhaseOf(s, p).DisposingExisting? ==> PhaseOf(Step(s, ExistingDisposed(p, false)), p) == Settled(None)
    ensures Enabled(s, PreviousSettled(p)) && Lookup(s.claims, s.producers[p].key) != Some(p) ==>
              PhaseOf(Step(s, PreviousSettled(p)), p) == Settled(None)
    ensures PhaseOf(s, p).Creating? ==> PhaseOf(Step(s, CreateSettled(p, false)), p) == Settled(None)
                                        && Step(s, CreateSettled(p, false)).created == s.created
  {
    hide Inv, Holds;
  }

  // ---------------------------------------------------------------------------
  // Teardown
  // ---------------------------------------------------------------------------

  ghost predicate Vacant(s: Store, key: Key) {
    key !in s.claims && key !in s.runtimes
  }

  lemma VacancyKept(s: Store, e: Event, key: Key)
    requires Inv(s) && Enabled(s, e) && Vacant(s, key)
    requires e.GetOrCreate? ==> e.key != key
    ensures Vacant(Step(s, e), key)
  {
    hide Inv, Holds;
  }

  lemma {:induction false} VacancyKeptOverRun(s: Store, events: seq<Event>, key: Key)
    requires Inv(s) && CanRun(s, events) && Vacant(s, key)
    requires forall e :: e in events && e.GetOrCreate? ==> e.key != key
    ensures Vacant(Run(s, events), key)
    decreases |events|
  {
    if events != [] {
      VacancyKept(s, events[0], key);
      StepKeepsInv(s, events[0]);
      VacancyKeptOverRun(Step(s, events[0]), events[1..], key);
    }
  }

  /** After a key is disposed, in any run that requests it no more: the key stays vacant at every
      moment, and once its producers have settled, every runtime created for it has been disposed,
      whatever stage each producer had reached. */
  lemma TeardownLeaksNothing(s: Store, key: Key, events: seq<Event>)
    requires Inv(s) && Inv(DisposeKey(s, key)) && CanRun(DisposeKey(s, key), events)
    requires forall e :: e in events && e.GetOrCreate? ==> e.key != key
    ensures var t := Run(DisposeKey(s, key), events);
            && Vacant(t, key)
            && (forall r: nat :: r < |t.created| && t.created[r].key == key ==>
                  r in t.disposed || exists p: nat :: p < |t.producers| && t.producers[p].key == key
                                                      && Unsettled(t.producers[p].phase) && Holds(t, HeldBy(p), r))
            && ((forall p :: 0 <= p < |t.producers| && t.producers[p].key == key ==> !Unsettled(t.producers[p].phase)) ==>
                  forall r: nat :: r < |t.created| && t.created[r].key == key ==> r in t.disposed)
  {
    VacancyKeptOverRun(DisposeKey(s, key), events, key);
    var t := Run(DisposeKey(s, key), events);
    forall r: nat | r < |t.created| && t.created[r].key == key
      ensures r in t.disposed || exists p: nat :: p < |t.producers| && t.producers[p].key == key
                                                  && Unsettled(t.producers[p].phase) && Holds(t, HeldBy(p), r)
    {
      assert Holds(t, t.place[r], r);
    }
  }

  // ---------------------------------------------------------------------------
  // What awaiting the captured producer guarantees
  // ---------------------------------------------------------------------------

  /** The producer no longer waits for the one it replaced. */
  predicate PastWait(phase: Phase) {
    phase != Start(None) && !phase.AwaitingPrevious?
  }

  /** A producer past its wait replaced one that has settled; one that was replaced has lost its claim. */
  ghost predicate WaitsSound(s: Store) {
    forall p :: 0 <= p < |s.producers| && s.producers[p].previous.Some? ==>
      var q := s.producers[p].previous.value;
      && (q < |s.producers| ==> !IsCurrent(s, q))
      && (PastWait(s.producers[p].phase) ==> !Unsettled(PhaseOf(s, q)))
  }

  /** Who made the runtime a producer holds: itself, or the producer whose runtime it unpublished,
      which has no claim and no other replacement. */
  ghost predicate HeldSound(s: Store, p: nat)
    requires p < |s.producers|
  {
    match s.producers[p].phase
    case Start(Some(r)) =>
      r < |s.created| && s.created[r].producer < |s.producers|
      && !IsCurrent(s, s.created[r].producer) && OnlyReplacedBy(s.producers, s.created[r].producer, p)
    case Holding(r) => r < |s.created| && s.created[r].producer == p
    case _ => true
  }

  ghost predicate OnlyReplacedBy(producers: seq<Producer>, q: nat, p: nat) {
    forall y :: 0 <= y < |producers| && producers[y].previous == Some(q) ==> y == p
  }

  ghost predicate NotReplaced(producers: seq<Producer>, q: nat) {
    forall y :: 0 <= y < |producers| ==> producers[y].previous != Some(q)
  }

  /** A runtime has the key and the identity of its maker. */
  ghost predicate OriginsSound(s: Store) {
    forall r :: 0 <= r < |s.created| ==>
      && s.created[r].producer < |s.producers|
      && s.producers[s.created[r].producer].key == s.created[r].key
      && s.producers[s.created[r].producer].identity == s.created[r].identity
  }

  ghost predicate Lineage(s: Store) {
    && WaitsSound(s) && OriginsSound(s)
    && (forall p: nat :: p < |s.producers| ==> HeldSound(s, p))
    && (forall k :: k in s.runtimes ==>
          && s.runtimes[k] < |s.created| && s.created[s.runtimes[k]].key == k
          && NotReplaced(s.producers, s.created[s.runtimes[k]].producer))
  }

  lemma PhaseKeepsWaits(s: Store, t: Store, p: nat)
    requires Inv(s) && WaitsSound(s) && OnlyPhase(s, t, p)
    ensures WaitsSound(t)
  {
    hide PlacesSound, Holds, HeldSound;
  }

  /** A phase change that takes no runtime, and waits no more only when the replaced producer has settled. */
  lemma PhaseKeepsLineage(s: Store, t: Store, p: nat)
    requires Inv(s) && Lineage(s) && OnlyPhase(s, t, p)
    ensures Lineage(t)
  {
    hide PlacesSound, Holds, WaitsSound;
    PhaseKeepsWaits(s, t, p);
    forall q: nat | q < |t.producers| ensures HeldSound(t, q) {
      assert HeldSound(s, q);
    }
  }

  lemma ClaimKeepsWaits(s: Store, key: Key, identity: Identity)
    requires Inv(s) && WaitsSound(s)
    ensures WaitsSound(Claim(s, key, identity))
  {
    hide Holds;
    var t := Claim(s, key, identity);
    assert key in s.claims && key in s.runtimes ==> PhaseOf(s, s.claims[key]).Settled?;
    forall p: nat | p < |s.producers| && s.producers[p].previous.Some? ensures !IsCurrent(t, s.producers[p].previous.value) {
      assert !IsCurrent(s, s.producers[p].previous.value);
    }
  }

  lemma ClaimKeepsHeld(s: Store, key: Key, identity: Identity, p: nat)
    requires Inv(s) && Lineage(s) && p < |Claim(s, key, identity).producers|
    ensures HeldSound(Claim(s, key, identity), p)
  {
    hide PlacesSound, Holds, WaitsSound;
    if p < |s.producers| {
      assert HeldSound(s, p);
    }
  }

  lemma ClaimKeepsLineage(s: Store, key: Key, identity: Identity)
    requires Inv(s) && Lineage(s)
    ensures Lineage(Claim(s, key, identity))
  {
    hide Holds, WaitsSound, HeldSound;
    ClaimKeepsWaits(s, key, identity);
    forall p: nat | p < |Claim(s, key, identity).producers| ensures HeldSound(Claim(s, key, identity), p) {
      ClaimKeepsHeld(s, key, identity, p);
    }
  }

  /** What publishing does to the parts of the store that lineage reads. */
  lemma PublishEffect(s: Store, p: nat)
    requires Inv(s) && PhaseOf(s, p).Holding? && IsCurrent(s, p)
    ensures var t, r := Step(s, Continue(p)), s.producers[p].phase.runtime;
            && t.runtimes == s.runtimes[s.producers[p].key := r] && t.claims == s.claims && t.created == s.created
            && t.producers == s.producers[p := s.producers[p].(phase := Settled(Some(r)))]
  {
    hide Inv, Holds;
  }

  lemma PublishKeepsWaits(s: Store, t: Store, p: nat, r: nat)
    requires WaitsSound(s) && p < |s.producers| && s.producers[p].phase == Holding(r) && t.claims == s.claims
    requires t.producers == s.producers[p := s.producers[p].(phase := Settled(Some(r)))]
    ensures WaitsSound(t)
  {
  }

  lemma PublishKeepsHeld(s: Store, t: Store, p: nat, r: nat, q: nat)
    requires p < |s.producers| && t.claims == s.claims && t.created == s.created
    requires t.producers == s.producers[p := s.producers[p].(phase := Settled(Some(r)))]
    requires q < |s.producers| && HeldSound(s, q)
    ensures HeldSound(t, q)
  {
  }

  /** The published runtime is its publisher's, whom nothing has replaced. */
  lemma PublishedNotReplaced(s: Store, p: nat)
    requires WaitsSound(s) && p < |s.producers| && IsCurrent(s, p)
    ensures NotReplaced(s.producers, p)
  {
  }

  lemma PublishKeepsLineage(s: Store, p: nat)
    requires Inv(s) && Lineage(s) && PhaseOf(s, p).Holding? && IsCurrent(s, p)
    ensures Lineage(Step(s, Continue(p)))
  {
    var t, r := Step(s, Continue(p)), s.producers[p].phase.runtime;
    PublishEffect(s, p);
    hide Inv, Step, Holds;
    assert HeldSound(s, p);
    PublishKeepsWaits(s, t, p, r);
    PublishedNotReplaced(s, p);
    hide WaitsSound;
    forall q: nat | q < |t.producers| ensures HeldSound(t, q) {
      assert HeldSound(s, q);
      PublishKeepsHeld(s, t, p, r, q);
    }
    hide HeldSound;
    PublishKeepsUnreplaced(s, t, p, r);
  }

  lemma PublishKeepsUnreplaced(s: Store, t: Store, p: nat, r: nat)
    requires Lineage(s) && p < |s.producers| && NotReplaced(s.producers, p) && HeldSound(s, p)
    requires s.producers[p].phase == Holding(r) && t.runtimes == s.runtimes[s.producers[p].key := r] && t.created == s.created
    requires t.producers == s.producers[p := s.producers[p].(phase := Settled(Some(r)))]
    ensures forall k :: k in t.runtimes ==>
              && t.runtimes[k] < |t.created| && t.created[t.runtimes[k]].key == k
              && NotReplaced(t.producers, t.created[t.runtimes[k]].producer)
  {
    hide WaitsSound;
    forall k | k in t.runtimes
      ensures t.runtimes[k] < |t.created| && t.created[t.runtimes[k]].key == k
      ensures NotReplaced(t.producers, t.created[t.runtimes[k]].producer)
    {
      if k != s.producers[p].key {
        assert NotReplaced(s.producers, s.created[s.runtimes[k]].producer);
      }
    }
  }

  lemma RemovalKeepsLineage(s: Store, t: Store)
    requires Lineage(s) && t.producers == s.producers && t.created == s.created
    requires forall k :: k in t.claims ==> k in s.claims && t.claims[k] == s.claims[k]
    requires forall k :: k in t.runtimes ==> k in s.runtimes && t.runtimes[k] == s.runtimes[k]
    ensures Lineage(t)
  {
    forall q: nat | q < |t.producers| ensures HeldSound(t, q) {
      assert HeldSound(s, q);
    }
  }

  /** What PhaseKeepsLineage asks of a producer's step. */
  ghost predicate OnlyPhase(s: Store, t: Store, p: nat) {
    && p < |s.producers| == |t.producers|
    && t.producers == s.producers[p := s.producers[p].(phase := t.producers[p].phase)]
    && s.created <= t.created
    && OriginsSound(t)
    && (forall k :: k in t.claims ==> k in s.claims && t.claims[k] == s.claims[k])
    && (forall k :: k in t.runtimes ==> k in s.runtimes && t.runtimes[k] == s.runtimes[k])
    && (!Unsettled(s.producers[p].phase) ==> !Unsettled(t.producers[p].phase))
    && (PastWait(t.producers[p].phase) && s.producers[p].previous.Some? && !PastWait(s.producers[p].phase) ==>
          !Unsettled(PhaseOf(s, s.producers[p].previous.value)))
    && HeldSound(t, p)
  }

  lemma DisposalIsOnlyPhase(s: Store, e: Event)
    requires Inv(s) && OriginsSound(s) && Enabled(s, e) && (e.Begin? || e.ExistingDisposed? || e.PreviousSettled? || e.OwnDisposed?)
    ensures OnlyPhase(s, Step(s, e), e.p)
  {
    hide Inv, Holds;
  }

  lemma CreationIsOnlyPhase(s: Store, e: Event)
    requires Inv(s) && OriginsSound(s) && Enabled(s, e) && (e.CreateSettled? || e.Finally? || (e.Continue? && !IsCurrent(s, e.p)))
    ensures OnlyPhase(s, Step(s, e), e.p)
  {
    hide Inv, Holds;
  }

  lemma StepKeepsLineage(s: Store, e: Event)
    requires Inv(s) && Lineage(s) && Enabled(s, e)
    ensures Lineage(Step(s, e))
  {
    assert OriginsSound(s);
    hide Lineage, PlacesSound, Holds, OnlyPhase, OriginsSound;
    if e.GetOrCreate? {
      if MustCreate(s, e.key, e.identity) {
        ClaimKeepsLineage(s, e.key, e.identity);
      }
    } else if !IsProducerEvent(e) {
      RemovalKeepsLineage(s, Step(s, e));
    } else {
      hide Step;
      if e.Continue? && IsCurrent(s, e.p) {
        PublishKeepsLineage(s, e.p);
      } else {
        if e.CreateSettled? || e.Finally? || e.Continue? {
          CreationIsOnlyPhase(s, e);
        } else {
          DisposalIsOnlyPhase(s, e);
        }
        PhaseKeepsLineage(s, Step(s, e), e.p);
      }
    }
  }

  lemma {:induction false} RunKeepsLineage(s: Store, events: seq<Event>)
    requires Inv(s) && Lineage(s) && CanRun(s, events)
    ensures Lineage(Run(s, events))
    decreases |events|
  {
    if events != [] {
      StepKeepsInv(s, events[0]);
      StepKeepsLineage(s, events[0]);
      RunKeepsLineage(Step(s, events[0]), events[1..]);
    }
  }

  /** `q` is the producer itself or one it replaced, directly or not. */
  predicate Behind(producers: seq<Producer>, q: nat, p: nat)
    decreases p
  {
    q == p
    || (p < |producers| && producers[p].previous.Some? && producers[p].previous.value < p
        && Behind(producers, q, producers[p].previous.value))
  }

  /** A settled producer has only settled ones behind it. */
  lemma {:induction false} SettledChain(s: Store, q: nat, p: nat)
    requires Inv(s) && Lineage(s) && Behind(s.producers, q, p) && p < |s.producers|
    requires !Unsettled(PhaseOf(s, p))
    ensures !Unsettled(PhaseOf(s, q))
    decreases p
  {
    if q != p {
      SettledChain(s, q, s.producers[p].previous.value);
    }
  }

  /** A runtime unpublished by a producer came from one that has no other replacement, so if its
      maker is behind `p` but not `p` itself, so is the producer holding it. */
  lemma {:induction false} HolderBehind(producers: seq<Producer>, q: nat, holder: nat, p: nat)
    requires Behind(producers, q, p) && q != p && OnlyReplacedBy(producers, q, holder)
    ensures Behind(producers, holder, p)
    decreases p
  {
    var previous := producers[p].previous.value;
    if previous == q {
      assert holder == p;
    } else {
      HolderBehind(producers, q, holder, previous);
    }
  }

  /** The runtime is held by an unsettled producer of the key outside the chain of the captured one. */
  ghost predicate HeldOutside(t: Store, key: Key, captured: Option<nat>, r: nat) {
    exists p: nat :: p < |t.producers| && t.producers[p].key == key && Unsettled(t.producers[p].phase)
      && Holds(t, HeldBy(p), r) && (captured.Some? ==> !Behind(t.producers, p, captured.value))
  }

  /** No producer has unpublished a runtime this one made. */
  ghost predicate NotTaken(s: Store, p: nat) {
    forall x, r: nat :: 0 <= x < |s.producers| && s.producers[x].phase == Start(Some(r)) && r < |s.created| ==>
      s.created[r].producer != p
  }

  lemma {:induction false} NotTakenOverRun(s: Store, events: seq<Event>, p: nat)
    requires Inv(s) && Lineage(s) && CanRun(s, events) && p < |s.producers| && NotTaken(s, p)
    requires forall e :: e in events && e.GetOrCreate? ==> e.key != s.producers[p].key
    ensures p < |Run(s, events).producers| && Run(s, events).producers[p].key == s.producers[p].key
    ensures Run(s, events).producers[p].previous == s.producers[p].previous
    ensures NotTaken(Run(s, events), p)
    decreases |events|
  {
    if events != [] {
      StepKeepsInv(s, events[0]);
      StepKeepsLineage(s, events[0]);
      StepNotTaken(s, events[0], p);
      NotTakenOverRun(Step(s, events[0]), events[1..], p);
    }
  }

  lemma StepNotTaken(s: Store, e: Event, p: nat)
    requires Inv(s) && Lineage(s) && Enabled(s, e) && p < |s.producers| && NotTaken(s, p)
    requires e.GetOrCreate? ==> e.key != s.producers[p].key
    ensures var t := Step(s, e);
            p < |t.producers| && t.producers[p].key == s.producers[p].key
            && t.producers[p].previous == s.producers[p].previous && NotTaken(t, p)
  {
    if e.GetOrCreate? && MustCreate(s, e.key, e.identity) {
      hide Holds, WaitsSound, HeldSound, NotTaken;
      ClaimNotTaken(s, e.key, e.identity, p);
    } else {
      StartsOnlyByClaim(s, e);
      hide Step;
      var t := Step(s, e);
      forall x, r: nat | 0 <= x < |t.producers| && t.producers[x].phase == Start(Some(r)) && r < |t.created|
        ensures t.created[r].producer != p
      {
        assert HeldSound(s, x);
      }
    }
  }

  lemma ClaimNotTaken(s: Store, key: Key, identity: Identity, p: nat)
    requires Inv(s) && Lineage(s) && p < |s.producers| && NotTaken(s, p) && key != s.producers[p].key
    requires key in s.runtimes ==> s.runtimes[key] < |s.place|
    ensures NotTaken(Claim(s, key, identity), p)
  {
    hide Holds, WaitsSound, HeldSound;
  }

  /** No step but a claim starts a producer; keys and predecessors never change. */
  ghost predicate NoneStarts(s: Store, t: Store) {
    && |t.producers| == |s.producers| && s.created <= t.created
    && forall x :: 0 <= x < |s.producers| ==>
         && t.producers[x].key == s.producers[x].key && t.producers[x].previous == s.producers[x].previous
         && (t.producers[x].phase.Start? ==> t.producers[x].phase == s.producers[x].phase)
  }

  lemma ProducerStepStartsNone(s: Store, e: Event)
    requires Inv(s) && Enabled(s, e) && IsProducerEvent(e)
    ensures NoneStarts(s, Step(s, e))
  {
    assert s.created <= Step(s, e).created by {
      hide Inv, Holds;
    }
    hide Inv, Step, Enabled;
    ProducerStepChangesOne(s, e);
  }

  lemma StartsOnlyByClaim(s: Store, e: Event)
    requires Inv(s) && Enabled(s, e) && !(e.GetOrCreate? && Step(s, e) != s)
    ensures NoneStarts(s, Step(s, e))
  {
    if IsProducerEvent(e) {
      ProducerStepStartsNone(s, e);
    } else {
      hide Holds, Inv;
    }
  }

  /** Everything made in the chain of a settled producer, from whom nothing was taken, has been disposed. */
  lemma ChainDisposed(t: Store, key: Key, p: nat, r: nat)
    requires Inv(t) && Lineage(t) && Vacant(t, key)
    requires p < |t.producers| && t.producers[p].key == key && !Unsettled(PhaseOf(t, p))
    requires r < |t.created| && Behind(t.producers, t.created[r].producer, p)
    requires NotTaken(t, p)
    requires t.created[r].key == key
    ensures r in t.disposed
  {
    assert Holds(t, t.place[r], r);
    if t.place[r].HeldBy? {
      var holder, maker := t.place[r].producer, t.created[r].producer;
      assert HeldSound(t, holder);
      if t.producers[holder].phase.Holding? {
        SettledChain(t, maker, p);
      } else if maker != p {
        HolderBehind(t.producers, maker, holder, p);
        SettledChain(t, holder, p);
      }
    }
  }

  /** Disposing a key awaits only the producer it captures. Once that one has settled, in any run
      that requests the key no more: the key is vacant; every runtime made by the captured producer
      or by one behind it has been disposed; and a runtime of the key has not been disposed exactly
      when an unsettled producer outside the captured chain holds it. */
  lemma AwaitedTeardown(before: seq<Event>, key: Key, events: seq<Event>)
    requires Inv(EMPTY) && CanRun(EMPTY, before)
    requires Inv(DisposeKey(Run(EMPTY, before), key)) && CanRun(DisposeKey(Run(EMPTY, before), key), events)
    requires forall e :: e in events && e.GetOrCreate? ==> e.key != key
    requires var s, t := Run(EMPTY, before), Run(DisposeKey(Run(EMPTY, before), key), events);
             key in s.claims ==> !Unsettled(PhaseOf(t, s.claims[key]))
    ensures var s, t := Run(EMPTY, before), Run(DisposeKey(Run(EMPTY, before), key), events);
            && Vacant(t, key)
            && (key in s.claims ==>
                  forall r: nat :: r < |t.created| && Behind(t.producers, t.created[r].producer, s.claims[key]) ==> r in t.disposed)
            && (forall r: nat :: r < |t.created| && t.created[r].key == key ==>
                  (r !in t.disposed <==> HeldOutside(t, key, Lookup(s.claims, key), r)))
  {
    var s := Run(EMPTY, before);
    var d := DisposeKey(s, key);
    var t := Run(d, events);
    RunKeepsLineage(EMPTY, before);
    RemovalKeepsLineage(s, d);
    RunKeepsLineage(d, events);
    VacancyKeptOverRun(d, events, key);
    if key in s.claims {
      CapturedSettles(s, key, events);
    }
    var captured := Lookup(s.claims, key);
    forall r: nat | r < |t.created| && t.created[r].key == key
      ensures r !in t.disposed <==> HeldOutside(t, key, captured, r)
    {
      UndisposedIsHeldOutside(t, key, captured, r);
    }
  }

  lemma CapturedSettles(s: Store, key: Key, events: seq<Event>)
    requires Inv(s) && Lineage(s) && key in s.claims
    requires Inv(DisposeKey(s, key)) && Lineage(DisposeKey(s, key)) && CanRun(DisposeKey(s, key), events)
    requires forall e :: e in events && e.GetOrCreate? ==> e.key != key
    requires !Unsettled(PhaseOf(Run(DisposeKey(s, key), events), s.claims[key]))
    ensures var p, t := s.claims[key], Run(DisposeKey(s, key), events);
            && p < |t.producers| && t.producers[p].key == key
            && forall r: nat :: r < |t.created| && Behind(t.producers, t.created[r].producer, p) ==> r in t.disposed
  {
    hide Holds, WaitsSound;
    var p, d := s.claims[key], DisposeKey(s, key);
    assert NotTaken(d, p) by {
      forall x, r: nat | 0 <= x < |d.producers| && d.producers[x].phase == Start(Some(r)) && r < |d.created|
        ensures d.created[r].producer != p
      {
        assert HeldSound(s, x);
      }
    }
    NotTakenOverRun(d, events, p);
    var t := Run(d, events);
    VacancyKeptOverRun(d, events, key);
    RunKeepsLineage(d, events);
    forall r: nat | r < |t.created| && Behind(t.producers, t.created[r].producer, p) ensures r in t.disposed {
      BehindHasKey(t.producers, t.created[r].producer, p);
      ChainDisposed(t, key, p, r);
    }
  }

  lemma {:induction false} BehindHasKey(producers: seq<Producer>, q: nat, p: nat)
    requires ChainSound(producers) && p < |producers| && Behind(producers, q, p)
    ensures q < |producers| && producers[q].key == producers[p].key
    decreases p
  {
    if q != p {
      BehindHasKey(producers, q, producers[p].previous.value);
    }
  }

  lemma UndisposedIsHeldOutside(t: Store, key: Key, captured: Option<nat>, r: nat)
    requires Inv(t) && Lineage(t) && Vacant(t, key) && r < |t.created| && t.created[r].key == key
    requires captured.Some? ==> captured.value < |t.producers| && !Unsettled(PhaseOf(t, captured.value))
    ensures r !in t.disposed <==> HeldOutside(t, key, captured, r)
  {
    assert Holds(t, t.place[r], r);
    if t.place[r].HeldBy? {
      var p := t.place[r].producer;
      assert Holds(t, HeldBy(p), r) && Unsettled(t.producers[p].phase) && t.producers[p].key == key;
      assert !Holds(t, HandedToDispose, r);
      assert captured.Some? ==> !Behind(t.producers, p, captured.value) by {
        if captured.Some? && Behind(t.producers, p, captured.value) {
          SettledChain(t, p, captured.value);
        }
      }
    } else {
      assert Holds(t, HandedToDispose, r);
    }
  }

  // ---------------------------------------------------------------------------
  // The condition at the dispose
  // ---------------------------------------------------------------------------

  /** The producer holds a runtime or is creating one. */
  predicate Carries(phase: Phase) {
    (phase.Start? && phase.existing.Some?) || phase.Creating? || phase.Holding?
  }

  predicate Outside(s: Store, q: nat, captured: Option<nat>) {
    captured.Some? ==> !Behind(s.producers, q, captured.value)
  }

  /** Some producer of the key outside the chain of its claim carries: the claim was revoked before. */
  ghost predicate CarrierOutside(s: Store, key: Key) {
    exists q: nat :: q < |s.producers| && s.producers[q].key == key && Carries(s.producers[q].phase)
      && Outside(s, q, Lookup(s.claims, key))
  }

  /** If the run requests the key no more and settles the captured producer, it disposes every runtime of the key. */
  ghost predicate EndsClean(d: Store, key: Key, captured: Option<nat>, events: seq<Event>)
    requires Inv(d)
  {
    && CanRun(d, events) && (forall e :: e in events && e.GetOrCreate? ==> e.key != key)
    && (captured.Some? ==> !Unsettled(PhaseOf(Run(d, events), captured.value)))
    ==> forall r :: 0 <= r < |Run(d, events).created| && Run(d, events).created[r].key == key ==> r in Run(d, events).disposed
  }

  /** Producers keep their key and predecessor, and none is forgotten. */
  ghost predicate SameProducers(s: Store, t: Store) {
    && |s.producers| <= |t.producers|
    && forall p :: 0 <= p < |s.producers| ==>
         t.producers[p].key == s.producers[p].key && t.producers[p].previous == s.producers[p].previous
  }

  lemma {:induction false} BehindKept(s: Store, t: Store, q: nat, p: nat)
    requires SameProducers(s, t) && p < |s.producers|
    ensures Behind(t.producers, q, p) <==> Behind(s.producers, q, p)
    decreases p
  {
    if s.producers[p].previous.Some? && s.producers[p].previous.value < p {
      BehindKept(s, t, q, s.producers[p].previous.value);
    }
  }

  /** On a vacant key nothing begins to carry. */
  ghost predicate NoNewCarrier(s: Store, t: Store, key: Key) {
    forall p :: 0 <= p < |t.producers| && t.producers[p].key == key && Carries(t.producers[p].phase) ==>
      p < |s.producers| && Carries(s.producers[p].phase)
  }

  /** A producer's step changes its own phase only, forwards. */
  lemma ProducerStepChangesOne(s: Store, e: Event)
    requires Inv(s) && Enabled(s, e) && IsProducerEvent(e)
    ensures e.p < |s.producers|
    ensures Step(s, e).producers == s.producers[e.p := s.producers[e.p].(phase := PhaseOf(Step(s, e), e.p))]
    ensures PhaseRank(PhaseOf(Step(s, e), e.p)) < PhaseRank(PhaseOf(s, e.p))
    ensures Carries(PhaseOf(Step(s, e), e.p)) ==> Carries(PhaseOf(s, e.p)) || IsCurrent(s, e.p)
  {
    hide Inv, Holds, MustCreate, Claim, Retire, DisposeKey;
  }

  /** Other steps at most add a producer of the key they request. */
  lemma OtherStepsAddAtMostOne(s: Store, e: Event)
    requires Inv(s) && Enabled(s, e) && !IsProducerEvent(e)
    ensures var t := Step(s, e);
            s.producers <= t.producers
            && forall p :: |s.producers| <= p < |t.producers| ==> e.GetOrCreate? && t.producers[p].key == e.key
  {
    hide Inv, Holds;
  }

  lemma StepNoNewCarrier(s: Store, e: Event, key: Key)
    requires Inv(s) && Enabled(s, e) && Vacant(s, key) && (e.GetOrCreate? ==> e.key != key)
    ensures NoNewCarrier(s, Step(s, e), key) && SameProducers(s, Step(s, e))
  {
    hide Inv, Step, Enabled;
    if IsProducerEvent(e) {
      ProducerStepChangesOne(s, e);
    } else {
      OtherStepsAddAtMostOne(s, e);
    }
  }

  lemma {:induction false} RunNoNewCarrier(s: Store, events: seq<Event>, key: Key)
    requires Inv(s) && CanRun(s, events) && Vacant(s, key)
    requires forall e :: e in events && e.GetOrCreate? ==> e.key != key
    ensures NoNewCarrier(s, Run(s, events), key) && SameProducers(s, Run(s, events))
    decreases |events|
  {
    if events != [] {
      hide Inv, Step, Enabled;
      StepKeepsInv(s, events[0]);
      VacancyKept(s, events[0], key);
      StepNoNewCarrier(s, events[0], key);
      RunNoNewCarrier(Step(s, events[0]), events[1..], key);
    }
  }

  /** Without a carrier outside the captured chain every such run ends clean. */
  lemma NoCarrierEndsClean(s: Store, key: Key, events: seq<Event>)
    requires Inv(s) && Lineage(s) && Inv(DisposeKey(s, key)) && !CarrierOutside(s, key)
    ensures EndsClean(DisposeKey(s, key), key, Lookup(s.claims, key), events)
  {
    var d, captured := DisposeKey(s, key), Lookup(s.claims, key);
    if CanRun(d, events) && (forall e :: e in events && e.GetOrCreate? ==> e.key != key)
       && (captured.Some? ==> !Unsettled(PhaseOf(Run(d, events), captured.value)))
    {
      var t := Run(d, events);
      RemovalKeepsLineage(s, d);
      RunKeepsLineage(d, events);
      VacancyKeptOverRun(d, events, key);
      RunNoNewCarrier(d, events, key);
      forall r: nat | r < |t.created| && t.created[r].key == key ensures r in t.disposed {
        UndisposedIsHeldOutside(t, key, captured, r);
        NoneHeldOutside(s, key, t, r);
      }
    }
  }

  lemma NoneHeldOutside(s: Store, key: Key, t: Store, r: nat)
    requires Inv(s) && Inv(DisposeKey(s, key)) && !CarrierOutside(s, key)
    requires NoNewCarrier(DisposeKey(s, key), t, key) && SameProducers(DisposeKey(s, key), t)
    ensures !HeldOutside(t, key, Lookup(s.claims, key), r)
  {
    var d, captured := DisposeKey(s, key), Lookup(s.claims, key);
    assert d.producers == s.producers;
    forall p: nat | p < |t.producers| && t.producers[p].key == key && Holds(t, HeldBy(p), r)
      ensures captured.Some? && Behind(t.producers, p, captured.value)
    {
      assert Carries(t.producers[p].phase);
      assert Carries(s.producers[p].phase) && s.producers[p].key == key;
      if captured.Some? {
        BehindKept(d, t, p, captured.value);
      }
    }
  }

  lemma RunOne(s: Store, e: Event, rest: seq<Event>)
    requires Inv(s) && Enabled(s, e) && Inv(Step(s, e))
    ensures CanRun(s, [e] + rest) <==> CanRun(Step(s, e), rest)
    ensures CanRun(s, [e] + rest) ==> Run(s, [e] + rest) == Run(Step(s, e), rest)
  {
    hide Inv, Step, Enabled;
    assert ([e] + rest)[1..] == rest;
  }

  lemma RunNone(s: Store)
    requires Inv(s)
    ensures CanRun(s, []) && Run(s, []) == s
  {
  }

  lemma RunFirst(s: Store, e: Event, rest: seq<Event>)
    requires Inv(s) && CanRun(s, [e] + rest)
    ensures Enabled(s, e) && Inv(Step(s, e)) && CanRun(Step(s, e), rest)
    ensures Run(s, [e] + rest) == Run(Step(s, e), rest)
  {
    hide Inv, Step, Enabled;
    var events := [e] + rest;
    assert events[0] == e && events[1..] == rest;
    StepKeepsInv(s, e);
  }

  lemma ConcatStep(s: Store, e: Event, rest: seq<Event>, b: seq<Event>)
    requires Inv(s) && Enabled(s, e) && Inv(Step(s, e)) && CanRun(Step(s, e), rest)
    requires CanRun(Step(s, e), rest + b)
    requires CanRun(Run(Step(s, e), rest), b) && Run(Step(s, e), rest + b) == Run(Run(Step(s, e), rest), b)
    ensures CanRun(s, ([e] + rest) + b) && Run(s, ([e] + rest) + b) == Run(Run(Step(s, e), rest), b)
  {
    hide Inv, Step, Enabled, CanRun, Run;
    RunOne(s, e, rest + b);
    assert ([e] + rest) + b == [e] + (rest + b);
  }

  lemma {:induction false} RunConcat(s: Store, a: seq<Event>, b: seq<Event>)
    requires Inv(s) && CanRun(s, a) && CanRun(Run(s, a), b)
    ensures CanRun(s, a + b) && Run(s, a + b) == Run(Run(s, a), b)
    decreases |a|
  {
    hide Inv, Step, Enabled, CanRun, Run;
    if a == [] {
      RunNone(s);
      assert a + b == b;
    } else {
      var e, rest := a[0], a[1..];
      assert a == [e] + rest;
      RunFirst(s, e, rest);
      RunConcat(Step(s, e), rest, b);
      ConcatStep(s, e, rest, b);
    }
  }

  /** The next step of an unsettled producer that no longer waits for another one. */
  function NextStep(s: Store, p: nat): Event {
    match PhaseOf(s, p)
    case Start(_) => Begin(p)
    case DisposingExisting => ExistingDisposed(p, true)
    case AwaitingPrevious => PreviousSettled(p)
    case Creating => CreateSettled(p, true)
    case Holding(_) => Continue(p)
    case DisposingOwn => OwnDisposed(p)
    case _ => Finally(p)
  }

  /** Only producers in the set have changed, and only their phases. */
  ghost predicate OnlyChanged(s: Store, t: Store, movers: set<nat>) {
    && |t.producers| == |s.producers|
    && forall p: nat :: p < |s.producers| ==>
         && t.producers[p].key == s.producers[p].key && t.producers[p].previous == s.producers[p].previous
         && (p !in movers ==> t.producers[p] == s.producers[p])
         && (!Unsettled(s.producers[p].phase) ==> !Unsettled(t.producers[p].phase))
  }

  ghost predicate TakenIn(events: seq<Event>, movers: set<nat>) {
    forall e :: e in events ==> IsProducerEvent(e) && e.p in movers
  }

  lemma NextStepEnabled(s: Store, p: nat)
    requires Inv(s) && p < |s.producers| && Unsettled(PhaseOf(s, p))
    requires s.producers[p].previous.Some? ==> !Unsettled(PhaseOf(s, s.producers[p].previous.value))
    ensures var e := NextStep(s, p); Enabled(s, e) && TakenBy(e, p) && OnlyChanged(s, Step(s, e), {p})
  {
    assert Enabled(s, NextStep(s, p));
    hide Inv, Step, Enabled;
    ProducerStepChangesOne(s, NextStep(s, p));
  }

  /** A producer behind which everything has settled can be run until it settles. */
  lemma {:induction false} DrainProducer(s: Store, p: nat) returns (events: seq<Event>)
    requires Inv(s) && p < |s.producers|
    requires s.producers[p].previous.Some? ==> !Unsettled(PhaseOf(s, s.producers[p].previous.value))
    ensures TakenIn(events, {p}) && CanRun(s, events)
    ensures OnlyChanged(s, Run(s, events), {p}) && !Unsettled(PhaseOf(Run(s, events), p))
    decreases PhaseRank(PhaseOf(s, p))
  {
    if !Unsettled(PhaseOf(s, p)) {
      events := [];
    } else {
      var e := NextStep(s, p);
      NextStepEnabled(s, p);
      ProducerStepChangesOne(s, e);
      StepKeepsInv(s, e);
      hide Inv, Step, Enabled, NextStep;
      var rest := DrainProducer(Step(s, e), p);
      RunOne(s, e, rest);
      events := [e] + rest;
    }
  }

  /** The producers of a chain. */
  ghost function Chain(producers: seq<Producer>, p: nat): set<nat> {
    set q: nat | q <= p && Behind(producers, q, p)
  }

  lemma {:induction false} BehindIsEarlier(producers: seq<Producer>, q: nat, p: nat)
    requires Behind(producers, q, p)
    ensures q <= p
    decreases p
  {
    if q != p {
      BehindIsEarlier(producers, q, producers[p].previous.value);
    }
  }

  /** The chain of a producer can be run, oldest first, until the producer settles. */
  lemma {:induction false} DrainChain(s: Store, p: nat) returns (events: seq<Event>)
    requires Inv(s) && p < |s.producers|
    ensures TakenIn(events, Chain(s.producers, p)) && CanRun(s, events)
    ensures OnlyChanged(s, Run(s, events), Chain(s.producers, p)) && !Unsettled(PhaseOf(Run(s, events), p))
    decreases p
  {
    assert p in Chain(s.producers, p);
    var previous := s.producers[p].previous;
    if previous.None? {
      hide Inv;
      events := DrainProducer(s, p);
    } else {
      var first := DrainChain(s, previous.value);
      hide Inv, CanRun, Run;
      var t := Run(s, first);
      ChainGrows(s.producers, p);
      var second := DrainProducer(t, p);
      RunConcat(s, first, second);
      events := first + second;
    }
  }

  lemma ChainGrows(producers: seq<Producer>, p: nat)
    requires p < |producers| && producers[p].previous.Some? && producers[p].previous.value < p
    ensures Chain(producers, producers[p].previous.value) <= Chain(producers, p) && p in Chain(producers, p)
  {
  }

  /** A carrier that is creating first finishes that; then it holds a runtime. */
  lemma CarrierHolds(s: Store, q: nat) returns (events: seq<Event>, r: nat)
    requires Inv(s) && q < |s.producers| && Carries(s.producers[q].phase)
    ensures TakenIn(events, {q}) && CanRun(s, events) && OnlyChanged(s, Run(s, events), {q})
    ensures Holds(Run(s, events), HeldBy(q), r) && r < |Run(s, events).created|
    ensures Run(s, events).created[r].key == s.producers[q].key
  {
    if s.producers[q].phase.Creating? {
      var e := CreateSettled(q, true);
      StepKeepsInv(s, e);
      RunNone(Step(s, e));
      RunOne(s, e, []);
      events, r := [e] + [], |s.created|;
    } else {
      RunNone(s);
      events := [];
      r := if s.producers[q].phase.Start? then s.producers[q].phase.existing.value else s.producers[q].phase.runtime;
      assert Holds(s, HeldBy(q), r);
    }
  }

  /** What a producer holds stays undisposed as long as the producer does not move. */
  lemma HeldStays(s: Store, t: Store, q: nat, r: nat)
    requires Inv(s) && Inv(t) && q < |s.producers| && Holds(s, HeldBy(q), r)
    requires q < |t.producers| && t.producers[q] == s.producers[q]
    ensures Holds(t, HeldBy(q), r) && r !in t.disposed
    ensures r < |t.created| && t.created[r].key == s.producers[q].key
  {
    assert Holds(t, HeldBy(q), r);
    assert t.place[r] == HeldBy(q);
    assert !Holds(t, HandedToDispose, r);
  }

  /** A run of producer steps that settles the captured producer and leaves a runtime undisposed. */
  lemma NotClean(d: Store, key: Key, captured: Option<nat>, events: seq<Event>, r: nat)
    requires Inv(d) && CanRun(d, events) && forall e :: e in events ==> IsProducerEvent(e)
    requires captured.Some? ==> !Unsettled(PhaseOf(Run(d, events), captured.value))
    requires r < |Run(d, events).created| && Run(d, events).created[r].key == key && r !in Run(d, events).disposed
    ensures !EndsClean(d, key, captured, events)
  {
    hide Inv, CanRun, Run;
  }

  lemma TakenAreProducers(events: seq<Event>, movers: set<nat>)
    requires TakenIn(events, movers)
    ensures forall e :: e in events ==> IsProducerEvent(e)
  {
  }

  /** With a carrier outside the captured chain some such run does not end clean. */
  lemma CarrierEndsDirty(s: Store, key: Key, q: nat) returns (events: seq<Event>)
    requires Inv(s) && Inv(DisposeKey(s, key))
    requires q < |s.producers| && s.producers[q].key == key && Carries(s.producers[q].phase)
    requires Outside(s, q, Lookup(s.claims, key))
    ensures !EndsClean(DisposeKey(s, key), key, Lookup(s.claims, key), events)
  {
    var d, captured := DisposeKey(s, key), Lookup(s.claims, key);
    assert d.producers == s.producers && (captured.Some? ==> captured.value < |s.producers|);
    hide Inv, CanRun, Run, Holds, Step, DisposeKey, EndsClean, TakenIn;
    var first, r := CarrierHolds(d, q);
    TakenAreProducers(first, {q});
    if captured.None? {
      events := first;
      HeldStays(Run(d, first), Run(d, first), q, r);
    } else {
      var second := DrainAround(d, first, q, r, captured.value);
      RunConcat(d, first, second);
      events := first + second;
    }
    NotClean(d, key, captured, events, r);
  }

  /** The captured chain drains without the outside holder moving. */
  lemma DrainAround(d: Store, first: seq<Event>, q: nat, r: nat, p: nat) returns (second: seq<Event>)
    requires Inv(d) && CanRun(d, first) && q < |d.producers| && p < |d.producers| && !Behind(d.producers, q, p)
    requires OnlyChanged(d, Run(d, first), {q}) && Holds(Run(d, first), HeldBy(q), r)
    ensures CanRun(Run(d, first), second) && forall e :: e in second ==> IsProducerEvent(e)
    ensures var t := Run(Run(d, first), second);
            && !Unsettled(PhaseOf(t, p)) && r !in t.disposed
            && r < |t.created| && t.created[r].key == d.producers[q].key
  {
    var t := Run(d, first);
    hide Inv, CanRun, Run, Holds;
    ChainSame(d, t, p);
    second := DrainChain(t, p);
    assert q !in Chain(t.producers, p);
    HeldStays(t, Run(t, second), q, r);
  }

  lemma ChainSame(d: Store, t: Store, p: nat)
    requires p < |d.producers| && SameProducers(d, t)
    ensures Chain(t.producers, p) == Chain(d.producers, p)
  {
    forall q: nat ensures Behind(t.producers, q, p) <==> Behind(d.producers, q, p) {
      BehindKept(d, t, q, p);
    }
  }

  /** The exact condition, checkable when the key is disposed: every run that requests the key no more
      and settles the captured producer ends with all runtimes of the key disposed, if and only if no
      producer of the key outside the captured chain holds a runtime or is creating one. */
  lemma TeardownCompleteExactly(before: seq<Event>, key: Key)
    requires Inv(EMPTY) && CanRun(EMPTY, before) && Inv(DisposeKey(Run(EMPTY, before), key))
    ensures var s := Run(EMPTY, before);
            (forall events :: EndsClean(DisposeKey(s, key), key, Lookup(s.claims, key), events)) <==> !CarrierOutside(s, key)
  {
    var s := Run(EMPTY, before);
    RunKeepsLineage(EMPTY, before);
    if CarrierOutside(s, key) {
      var q: nat :| q < |s.producers| && s.producers[q].key == key && Carries(s.producers[q].phase)
        && Outside(s, q, Lookup(s.claims, key));
      var events := CarrierEndsDirty(s, key, q);
    } else {
      forall events ensures EndsClean(DisposeKey(s, key), key, Lookup(s.claims, key), events) {
        NoCarrierEndsClean(s, key, events);
      }
    }
  }

  /** A first creation is revoked in mid-flight, a second one claims the key. */
  function RevokedThenClaimed(): Store {
    Store(map[], map["k" := 1],
          [Producer("k", "i", None, Creating), Producer("k", "i", None, Start(None))], [], multiset{}, [])
  }

  lemma RevokedThenClaimedReached()
    ensures var creating := [PreviousSettled(0)] + ([DisposeKeyNow("k")] + ([GetOrCreate("k", "i")] + []));
            var before := [GetOrCreate("k", "i")] + ([Begin(0)] + creating);
            Inv(EMPTY) && CanRun(EMPTY, before) && Run(EMPTY, before) == RevokedThenClaimed()
  {
    hide CanRun, Run, Inv;
    EmptyInv();
    var get, revoke := GetOrCreate("k", "i"), DisposeKeyNow("k");
    StepKeepsInv(EMPTY, get);
    var s1 := Step(EMPTY, get);
    StepKeepsInv(s1, Begin(0));
    var s2 := Step(s1, Begin(0));
    StepKeepsInv(s2, PreviousSettled(0));
    var s3 := Step(s2, PreviousSettled(0));
    StepKeepsInv(s3, revoke);
    var s4 := Step(s3, revoke);
    assert s4.claims == map[] && s4.runtimes == map[];
    StepKeepsInv(s4, get);
    var s5 := Step(s4, get);
    var end := RevokedThenClaimed();
    assert s5.claims == end.claims && s5.runtimes == end.runtimes && s5.producers == end.producers;
    assert s5 == end;
    RunNone(s5);
    RunOne(s4, get, []);
    RunOne(s3, revoke, [get] + []);
    RunOne(s2, PreviousSettled(0), [revoke] + ([get] + []));
    RunOne(s1, Begin(0), [PreviousSettled(0)] + ([revoke] + ([get] + [])));
    RunOne(EMPTY, get, [Begin(0)] + ([PreviousSettled(0)] + ([revoke] + ([get] + []))));
  }

  lemma SecondSettlesFirstCreates()
    ensures var s := RevokedThenClaimed();
            var events := [Begin(1)] + ([PreviousSettled(1)] + ([CreateSettled(0, true)] + []));
            && Inv(s) && Inv(DisposeKey(s, "k")) && CanRun(DisposeKey(s, "k"), events)
            && Run(DisposeKey(s, "k"), events).producers ==
               [Producer("k", "i", None, Holding(0)), Producer("k", "i", None, Settled(None))]
            && Run(DisposeKey(s, "k"), events).created == [Origin("k", "i", 0)]
            && Run(DisposeKey(s, "k"), events).disposed == multiset{}
  {
    RevokedThenClaimedReached();
    hide CanRun, Run, Inv;
    var s := RevokedThenClaimed();
    DisposeKeyKeepsInv(s, "k");
    var d := DisposeKey(s, "k");
    StepKeepsInv(d, Begin(1));
    var d1 := Step(d, Begin(1));
    StepKeepsInv(d1, PreviousSettled(1));
    var d2 := Step(d1, PreviousSettled(1));
    assert d2.producers == [Producer("k", "i", None, Creating), Producer("k", "i", None, Settled(None))];
    StepKeepsInv(d2, CreateSettled(0, true));
    var d3 := Step(d2, CreateSettled(0, true));
    assert d3.producers == [Producer("k", "i", None, Holding(0)), Producer("k", "i", None, Settled(None))];
    RunNone(d3);
    RunOne(d2, CreateSettled(0, true), []);
    RunOne(d1, PreviousSettled(1), [CreateSettled(0, true)] + []);
    RunOne(d, Begin(1), [PreviousSettled(1)] + ([CreateSettled(0, true)] + []));
  }

  /** Disposing the key again captures the second creation only: that one settles while the first,
      revoked earlier, still comes up with a runtime. */
  lemma RevokedCreationOutlivesCapture() returns (before: seq<Event>, events: seq<Event>)
    ensures Inv(EMPTY) && CanRun(EMPTY, before)
    ensures var s := Run(EMPTY, before);
            && Lookup(s.claims, "k") == Some(1)
            && Inv(DisposeKey(s, "k")) && CanRun(DisposeKey(s, "k"), events)
            && (forall e :: e in events ==> !e.GetOrCreate?)
            && var t := Run(DisposeKey(s, "k"), events);
               && !Unsettled(PhaseOf(t, 1))
               && |t.created| == 1 && t.created[0].key == "k" && 0 !in t.disposed
  {
    RevokedThenClaimedReached();
    SecondSettlesFirstCreates();
    hide CanRun, Run, Inv, Step, DisposeKey;
    before := [GetOrCreate("k", "i")] + ([Begin(0)] + ([PreviousSettled(0)] + ([DisposeKeyNow("k")] + ([GetOrCreate("k", "i")] + []))));
    events := [Begin(1)] + ([PreviousSettled(1)] + ([CreateSettled(0, true)] + []));
  }

  // ---------------------------------------------------------------------------
  // Teardown always completes
  // ---------------------------------------------------------------------------

  function PhaseRank(phase: Phase): nat {
    match phase
    case Start(_) => 7
    case DisposingExisting => 6
    case AwaitingPrevious => 5
    case Creating => 4
    case Holding(_) => 3
    case DisposingOwn => 2
    case Settled(_) => 1
    case Done => 0
  }

  /** Steps the producers can still take. */
  function Remaining(producers: seq<Producer>): nat {
    if producers == [] then 0
    else Remaining(producers[..|producers| - 1]) + PhaseRank(producers[|producers| - 1].phase)
  }

  lemma {:induction false} RemainingUpdate(producers: seq<Producer>, p: nat, phase: Phase)
    requires p < |producers|
    ensures Remaining(producers[p := producers[p].(phase := phase)]) ==
            Remaining(producers) - PhaseRank(producers[p].phase) + PhaseRank(phase)
  {
    var last := |producers| - 1;
    var updated := producers[p := producers[p].(phase := phase)];
    if p == last {
      assert updated[..last] == producers[..last];
    } else {
      assert updated[..last] == producers[..last][p := producers[..last][p].(phase := phase)];
      RemainingUpdate(producers[..last], p, phase);
    }
  }

  lemma StepConsumes(s: Store, e: Event)
    requires Inv(s) && Enabled(s, e) && !e.GetOrCreate?
    ensures Remaining(Step(s, e).producers) + (if IsProducerEvent(e) then 1 else 0) <= Remaining(s.producers)
  {
    hide Inv, Holds, Remaining;
    if IsProducerEvent(e) {
      var phase := PhaseOf(Step(s, e), e.p);
      RemainingUpdate(s.producers, e.p, phase);
    }
  }

  function ProducerEvents(events: seq<Event>): nat {
    if events == [] then 0 else (if IsProducerEvent(events[0]) then 1 else 0) + ProducerEvents(events[1..])
  }

  /** Without new requests the producers take boundedly many steps. */
  lemma {:induction false} ProducersRunOut(s: Store, events: seq<Event>)
    requires Inv(s) && CanRun(s, events)
    requires forall e :: e in events ==> !e.GetOrCreate?
    ensures ProducerEvents(events) + Remaining(Run(s, events).producers) <= Remaining(s.producers)
    decreases |events|
  {
    if events != [] {
      StepConsumes(s, events[0]);
      StepKeepsInv(s, events[0]);
      ProducersRunOut(Step(s, events[0]), events[1..]);
    }
  }

  /** The oldest unsettled producer of a key is never blocked by another producer. */
  lemma NoDeadlock(s: Store, key: Key, p: nat)
    requires Inv(s) && p < |s.producers| && s.producers[p].key == key && Unsettled(s.producers[p].phase)
    requires forall q :: 0 <= q < p && s.producers[q].key == key ==> !Unsettled(s.producers[q].phase)
    ensures exists e :: TakenBy(e, p) && Enabled(s, e)
  {
    var e := match s.producers[p].phase
      case Start(_) => Begin(p)
      case DisposingExisting => ExistingDisposed(p, true)
      case AwaitingPrevious => PreviousSettled(p)
      case Creating => CreateSettled(p, true)
      case Holding(_) => Continue(p)
      case DisposingOwn => OwnDisposed(p)
      case Settled(_) => Finally(p)
      case Done => Finally(p);
    assert TakenBy(e, p) && Enabled(s, e);
  }

  // ---------------------------------------------------------------------------
  // The store object
  // ---------------------------------------------------------------------------

  datatype Answer = Join(producer: nat) | Reuse(runtime: nat) | Create(producer: nat)

  class RuntimeStore {
    var runtimes: map<Key, nat>
    var claims: map<Key, nat>
    var producers: seq<Producer>
    var created: seq<Origin>
    ghost var disposed: multiset<nat>
    ghost var place: seq<Place>

    ghost function View(): Store
      reads this
    {
      Store(runtimes, claims, producers, created, disposed, place)
    }

    ghost predicate Valid()
      reads this
    {
      Inv(View())
    }

    constructor ()
      ensures Valid() && View() == EMPTY
    {
      runtimes, claims, producers, created := map[], map[], [], [];
      disposed, place := multiset{}, [];
      new;
      EmptyInv();
    }

    /** A dispose call on a runtime that has already been taken out of its place. */
    ghost method NoteDispose(runtime: nat)
      requires runtime < |place|
      modifies this`disposed, this`place
      ensures View() == Dispose(old(View()), runtime)
    {
      disposed := disposed + multiset{runtime};
      place := place[runtime := HandedToDispose];
    }

    method GetOrCreateRuntimeEntry(key: Key, identity: Identity) returns (answer: Answer)
      requires Valid()
      modifies this
      ensures Valid() && View() == Step(old(View()), GetOrCreate(key, identity))
      ensures answer ==
        if MustCreate(old(View()), key, identity) then Create(|old(producers)|)
        else if key in old(claims) then Join(old(claims)[key]) else Reuse(old(runtimes)[key])
      ensures match answer
              case Join(p) =>
                p < |producers| && producers[p].key == key && producers[p].identity == identity
                && key in claims && claims[key] == p && View() == old(View())
              case Reuse(r) =>
                r < |created| && created[r].key == key && created[r].identity == identity
                && key !in claims && key in runtimes && runtimes[key] == r && View() == old(View())
              case Create(p) =>
                p < |producers| && producers[p].key == key && producers[p].identity == identity
                && key in claims && claims[key] == p && key !in runtimes && p == |old(producers)|
    {
      StepKeepsInv(View(), GetOrCreate(key, identity));
      RequestServesIdentity(View(), key, identity);
      if key in claims && producers[claims[key]].identity == identity {
        return Join(claims[key]);
      }
      if key !in claims && key in runtimes && created[runtimes[key]].identity == identity {
        return Reuse(runtimes[key]);
      }
      var existing, inFlight := Lookup(runtimes, key), Lookup(claims, key);
      var p := |producers|;
      runtimes := runtimes - {key};
      if existing.Some? {
        place := place[existing.value := HeldBy(p)];
      }
      producers := producers + [Producer(key, identity, inFlight, Start(existing))];
      claims := claims[key := p];
      answer := Create(p);
    }

    /** The removal and dispose call shared by the idle sweep, cap eviction and requester replacement. */
    method RetireRuntime(key: Key)
      requires Valid() && key in runtimes
      modifies this
      ensures Valid() && View() == Step(old(View()), RetireKey(key))
      ensures runtimes == old(runtimes) - {key} && claims == old(claims) && producers == old(producers)
      ensures disposed == old(disposed) + multiset{old(runtimes)[key]}
    {
      StepKeepsInv(View(), RetireKey(key));
      var runtime := runtimes[key];
      runtimes := runtimes - {key};
      NoteDispose(runtime);
    }

    method DisposeRuntimeKeyNow(key: Key) returns (inFlight: Option<nat>)
      requires Valid()
      modifies this
      ensures Valid() && View() == Step(old(View()), DisposeKeyNow(key))
      ensures inFlight == if key in old(claims) then Some(old(claims)[key]) else None
      ensures runtimes == old(runtimes) - {key} && claims == old(claims) - {key} && producers == old(producers)
      ensures disposed == if key in old(runtimes) then old(disposed) + multiset{old(runtimes)[key]} else old(disposed)
    {
      StepKeepsInv(View(), DisposeKeyNow(key));
      inFlight := Lookup(claims, key);
      var runtime := Lookup(runtimes, key);
      claims := claims - {key};
      runtimes := runtimes - {key};
      if runtime.Some? {
        NoteDispose(runtime.value);
      }
      assert runtime.None? ==> runtimes == old(runtimes);
    }

    method RunProducerStart(p: nat)
      requires Valid() && Enabled(View(), Begin(p))
      modifies this
      ensures Valid() && View() == Step(old(View()), Begin(p))
    {
      StepKeepsInv(View(), Begin(p));
      var existing := producers[p].phase.existing;
      if existing.Some? {
        assert Holds(View(), HeldBy(p), existing.value);
        NoteDispose(existing.value);
        producers := producers[p := producers[p].(phase := DisposingExisting)];
      } else {
        producers := producers[p := producers[p].(phase := AwaitingPrevious)];
      }
    }

    method CheckClaimThenCreate(p: nat) returns (creating: bool)
      requires Valid() && Enabled(View(), PreviousSettled(p))
      modifies this
      ensures Valid() && View() == Step(old(View()), PreviousSettled(p))
      ensures creating == IsCurrent(old(View()), p)
    {
      StepKeepsInv(View(), PreviousSettled(p));
      creating := Lookup(claims, producers[p].key) == Some(p);
      producers := producers[p := producers[p].(phase := if creating then Creating else Settled(None))];
    }

    method RuntimeCreated(p: nat)
      requires Valid() && Enabled(View(), CreateSettled(p, true))
      modifies this
      ensures Valid() && View() == Step(old(View()), CreateSettled(p, true))
    {
      StepKeepsInv(View(), CreateSettled(p, true));
      var runtime := |created|;
      created := created + [Origin(producers[p].key, producers[p].identity, p)];
      place := place + [HeldBy(p)];
      producers := producers[p := producers[p].(phase := Holding(runtime))];
    }

    method PublishOrDispose(p: nat) returns (published: bool)
      requires Valid() && Enabled(View(), Continue(p))
      modifies this
      ensures Valid() && View() == Step(old(View()), Continue(p))
      ensures published == IsCurrent(old(View()), p)
      ensures var key, runtime := old(producers)[p].key, old(producers)[p].phase.runtime;
              && claims == old(claims)
              && (published <==> key in claims && claims[key] == p)
              && (if published then
                    runtimes == old(runtimes)[key := runtime] && disposed == old(disposed) && producers[p].phase == Settled(Some(runtime))
                  else
                    runtimes == old(runtimes) && disposed == old(disposed) + multiset{runtime} && producers[p].phase == DisposingOwn)
    {
      StepKeepsInv(View(), Continue(p));
      var runtime, key := producers[p].phase.runtime, producers[p].key;
      assert Holds(View(), HeldBy(p), runtime);
      if Lookup(claims, key) == Some(p) {
        runtimes := runtimes[key := runtime];
        place := place[runtime := PublishedAt(key)];
        producers := producers[p := producers[p].(phase := Settled(Some(runtime)))];
        published := true;
      } else {
        NoteDispose(runtime);
        producers := producers[p := producers[p].(phase := DisposingOwn)];
        published := false;
      }
    }

    method ReleaseClaim(p: nat)
      requires Valid() && Enabled(View(), Finally(p))
      modifies this
      ensures Valid() && View() == Step(old(View()), Finally(p))
      ensures var key := old(producers)[p].key;
              && runtimes == old(runtimes) && disposed == old(disposed)
              && claims == (if key in old(claims) && old(claims)[key] == p then old(claims) - {key} else old(claims))
    {
      StepKeepsInv(View(), Finally(p));
      var key := producers[p].key;
      if Lookup(claims, key) == Some(p) {
        claims := claims - {key};
      }
      producers := producers[p := producers[p].(phase := Done)];
    }
  }
}
