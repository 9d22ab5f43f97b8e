/** Requester keys: requests for them and their disposal run as sections of the key's work chain, so
    a disposal meets no creation of an earlier one. */
module LockedKeys {
  import opened Base
  import opened PublishedRuntimes
  import Manager = RuntimeManager
  import Chains = ExclusiveChains

  /** `awaited` is the creation each section last requested or captured. */
  datatype System = System(store: Manager.Store, chains: Chains.Chains, awaited: seq<Option<nat>>)

  const EMPTY: System := System(Manager.EMPTY, Chains.Chains([], map[]), [])

  /** A section does any number of requests and disposals one after the other, each awaited before
      the next. Bare keys are requested and disposed without a section. */
  datatype Event =
    | StoreStep(e: Manager.Event)
    | CallSection(key: Key)
    | StartSection(i: nat)
    | RequestIn(i: nat, identity: Manager.Identity)
    | DisposeIn(i: nat)
    | EndSection(i: nat, ok: bool)
    | DropSection(i: nat)

  predicate IsRunning(s: System, i: nat) {
    i < |s.chains.sections| && s.chains.sections[i].status.Running?
  }

  /** What the section awaits has settled. */
  predicate AwaitOver(s: System, i: nat) {
    i < |s.awaited| && (s.awaited[i].Some? ==> !Manager.Unsettled(Manager.PhaseOf(s.store, s.awaited[i].value)))
  }

  predicate Enabled(s: System, e: Event) {
    match e
    case StoreStep(e) =>
      Manager.Enabled(s.store, e) && (e.GetOrCreate? || e.DisposeKeyNow? ==> !HasWorkChain(e.key))
    case CallSection(_) => true
    case StartSection(i) => Chains.Enabled(s.chains, Chains.StartWork(i))
    case RequestIn(i, _) => IsRunning(s, i) && AwaitOver(s, i)
    case DisposeIn(i) => IsRunning(s, i) && AwaitOver(s, i)
    case EndSection(i, ok) => Chains.Enabled(s.chains, Chains.Settle(i, ok)) && AwaitOver(s, i)
    case DropSection(i) => Chains.Enabled(s.chains, Chains.Drop(i))
  }

  /** The store event of a section's request or disposal. */
  function StoreEvent(s: System, e: Event): Manager.Event
    requires (e.RequestIn? || e.DisposeIn?) && e.i < |s.chains.sections|
  {
    var key := s.chains.sections[e.i].key;
    if e.RequestIn? then Manager.GetOrCreate(key, e.identity) else Manager.DisposeKeyNow(key)
  }

  function Step(s: System, e: Event): System
    requires Manager.Inv(s.store) && Enabled(s, e)
  {
    match e
    case StoreStep(e) => s.(store := Manager.Step(s.store, e))
    case CallSection(key) => s.(chains := Chains.Step(s.chains, Chains.Call(key)), awaited := s.awaited + [None])
    case StartSection(i) => s.(chains := Chains.Step(s.chains, Chains.StartWork(i)))
    case RequestIn(i, _) =>
      var store := Manager.Step(s.store, StoreEvent(s, e));
      s.(store := store, awaited := s.awaited[i := Manager.Lookup(store.claims, s.chains.sections[i].key)])
    case DisposeIn(i) =>
      s.(store := Manager.Step(s.store, StoreEvent(s, e)),
         awaited := s.awaited[i := Manager.Lookup(s.store.claims, s.chains.sections[i].key)])
    case EndSection(i, ok) => s.(chains := Chains.Step(s.chains, Chains.Settle(i, ok)))
    case DropSection(i) => s.(chains := Chains.Step(s.chains, Chains.Drop(i)))
  }

  /** The creation is awaited by a running section of its key. */
  ghost predicate AwaitedByRunning(s: System, p: nat)
    requires p < |s.store.producers|
  {
    exists i :: 0 <= i < |s.awaited| && IsRunning(s, i) && s.awaited[i] == Some(p)
                && s.chains.sections[i].key == s.store.producers[p].key
  }

  /** Unsettled creations of a locked key are awaited by the section that runs. */
  ghost predicate Guarded(s: System) {
    forall p: nat :: p < |s.store.producers| ==>
      (HasWorkChain(s.store.producers[p].key) && Manager.Unsettled(s.store.producers[p].phase) ==> AwaitedByRunning(s, p))
  }

  ghost predicate Inv(s: System) {
    Manager.Inv(s.store) && Chains.Inv(s.chains) && |s.awaited| == |s.chains.sections| && Guarded(s)
  }

  /** At most one section of a key runs. */
  lemma OneRuns(s: System, i: nat, j: nat)
    requires Chains.Inv(s.chains) && IsRunning(s, i) && IsRunning(s, j)
    requires s.chains.sections[i].key == s.chains.sections[j].key
    ensures i == j
  {
    assert i < j ==> Chains.Before(s.chains, i, j);
    assert j < i ==> Chains.Before(s.chains, j, i);
  }

  /** When a running section awaits nothing, every creation of its locked key has settled. */
  lemma AllSettled(s: System, i: nat, p: nat)
    requires Inv(s) && IsRunning(s, i) && AwaitOver(s, i) && HasWorkChain(s.chains.sections[i].key)
    requires p < |s.store.producers| && s.store.producers[p].key == s.chains.sections[i].key
    ensures !Manager.Unsettled(s.store.producers[p].phase)
  {
    hide Manager.Inv, Chains.Inv;
    if Manager.Unsettled(s.store.producers[p].phase) {
      assert AwaitedByRunning(s, p);
      var j :| 0 <= j < |s.awaited| && IsRunning(s, j) && s.awaited[j] == Some(p)
        && s.chains.sections[j].key == s.store.producers[p].key;
      OneRuns(s, i, j);
    }
  }

  /** Disposing a locked key in a section leaves the key vacant and every runtime ever created for
      it disposed, at once: nothing is left to come up later. */
  lemma LockedDisposalIsComplete(s: System, i: nat)
    requires Inv(s) && Enabled(s, DisposeIn(i)) && HasWorkChain(s.chains.sections[i].key)
    ensures var key, t := s.chains.sections[i].key, Step(s, DisposeIn(i)).store;
            && Manager.Vacant(t, key)
            && (forall r :: 0 <= r < |t.created| && t.created[r].key == key ==> r in t.disposed)
            && (forall p :: 0 <= p < |t.producers| && t.producers[p].key == key ==> !Manager.Unsettled(t.producers[p].phase))
  {
    var key := s.chains.sections[i].key;
    forall p: nat | p < |s.store.producers| && s.store.producers[p].key == key
      ensures !Manager.Unsettled(s.store.producers[p].phase)
    {
      AllSettled(s, i, p);
    }
    hide Manager.Inv, Chains.Inv, Guarded;
    Manager.DisposeKeyKeepsInv(s.store, key);
    assert Step(s, DisposeIn(i)).store == Manager.DisposeKey(s.store, key);
    Manager.RunNone(Manager.DisposeKey(s.store, key));
    Manager.TeardownLeaksNothing(s.store, key, []);
  }

  // ---------------------------------------------------------------------------
  // The invariant over every run
  // ---------------------------------------------------------------------------

  /** Producers are kept, settled ones stay settled, and only a request makes a new one, which it claims. */
  ghost predicate StoreMoved(s: Manager.Store, t: Manager.Store, e: Manager.Event) {
    && |s.producers| <= |t.producers| <= |s.producers| + 1
    && (forall p :: 0 <= p < |s.producers| ==>
          && t.producers[p].key == s.producers[p].key
          && (Manager.Unsettled(t.producers[p].phase) ==> Manager.Unsettled(s.producers[p].phase)))
    && (|t.producers| > |s.producers| ==>
          && e.GetOrCreate? && t.producers[|s.producers|].key == e.key
          && Manager.Lookup(t.claims, e.key) == Some(|s.producers|))
  }

  lemma StoreMoves(s: Manager.Store, e: Manager.Event)
    requires Manager.Inv(s) && Manager.Enabled(s, e)
    ensures Manager.Inv(Manager.Step(s, e)) && StoreMoved(s, Manager.Step(s, e), e)
  {
    Manager.StepKeepsInv(s, e);
    if Manager.IsProducerEvent(e) {
      hide Manager.Inv, Manager.Step, Manager.Enabled;
      Manager.ProducerStepChangesOne(s, e);
    } else if e.GetOrCreate? {
      RequestMoves(s, e.key, e.identity);
    } else {
      hide Manager.Inv, Manager.Step, Manager.Enabled;
      Manager.OtherStepsAddAtMostOne(s, e);
    }
  }

  lemma RequestMoves(s: Manager.Store, key: Key, identity: Manager.Identity)
    requires Manager.Inv(s)
    ensures StoreMoved(s, Manager.Step(s, Manager.GetOrCreate(key, identity)), Manager.GetOrCreate(key, identity))
  {
    hide Manager.Inv, Manager.Holds;
  }

  /** The store moved outside any section: no creation of a locked key is new. */
  lemma StoreStepGuarded(s: System, e: Manager.Event)
    requires Inv(s) && Enabled(s, StoreStep(e))
    ensures Guarded(Step(s, StoreStep(e)))
  {
    StoreMoves(s.store, e);
    hide Manager.Inv, Chains.Inv, Manager.Step;
    var t := Step(s, StoreStep(e));
    forall p: nat | p < |t.store.producers| && HasWorkChain(t.store.producers[p].key)
                    && Manager.Unsettled(t.store.producers[p].phase) ensures AwaitedByRunning(t, p) {
      assert p < |s.store.producers|;
      assert AwaitedByRunning(s, p);
    }
  }

  /** A section moved the store: what it awaits now is the one creation that can be unsettled. */
  lemma SectionGuarded(s: System, e: Event)
    requires Inv(s) && Enabled(s, e) && (e.RequestIn? || e.DisposeIn?)
    ensures Guarded(Step(s, e))
  {
    var event := StoreEvent(s, e);
    StoreMoves(s.store, event);
    hide Manager.Inv, Chains.Inv, Manager.Step;
    var t, key := Step(s, e), s.chains.sections[e.i].key;
    forall p: nat | p < |t.store.producers| && HasWorkChain(t.store.producers[p].key)
                    && Manager.Unsettled(t.store.producers[p].phase) ensures AwaitedByRunning(t, p) {
      if p < |s.store.producers| {
        assert AwaitedByRunning(s, p);
        var j :| 0 <= j < |s.awaited| && IsRunning(s, j) && s.awaited[j] == Some(p)
          && s.chains.sections[j].key == s.store.producers[p].key;
        assert j != e.i;
        assert t.awaited[j] == Some(p) && IsRunning(t, j);
      } else {
        assert t.awaited[e.i] == Some(p) && IsRunning(t, e.i);
      }
    }
  }

  /** A chain step ends at most the section whose creation has settled. */
  lemma ChainStepGuarded(s: System, e: Event)
    requires Inv(s) && Enabled(s, e) && !e.StoreStep? && !e.RequestIn? && !e.DisposeIn?
    ensures Guarded(Step(s, e))
  {
    hide Manager.Inv, Chains.Inv;
    var t := Step(s, e);
    forall p: nat | p < |t.store.producers| && HasWorkChain(t.store.producers[p].key)
                    && Manager.Unsettled(t.store.producers[p].phase) ensures AwaitedByRunning(t, p) {
      assert AwaitedByRunning(s, p);
      var j :| 0 <= j < |s.awaited| && IsRunning(s, j) && s.awaited[j] == Some(p)
        && s.chains.sections[j].key == s.store.producers[p].key;
      assert e.EndSection? ==> j != e.i;
      assert t.awaited[j] == Some(p) && IsRunning(t, j) && t.chains.sections[j].key == s.chains.sections[j].key;
    }
  }

  lemma ChainsKept(s: System, e: Event)
    requires Inv(s) && Enabled(s, e)
    ensures Chains.Inv(Step(s, e).chains) && |Step(s, e).awaited| == |Step(s, e).chains.sections|
  {
    hide Manager.Inv, Chains.Inv, Guarded;
    match e
    case CallSection(key) => Chains.StepKeepsInv(s.chains, Chains.Call(key));
    case StartSection(i) => Chains.StepKeepsInv(s.chains, Chains.StartWork(i));
    case EndSection(i, ok) => Chains.StepKeepsInv(s.chains, Chains.Settle(i, ok));
    case DropSection(i) => Chains.StepKeepsInv(s.chains, Chains.Drop(i));
    case StoreStep(_) =>
    case RequestIn(_, _) =>
    case DisposeIn(_) =>
  }

  lemma StepKeepsInv(s: System, e: Event)
    requires Inv(s) && Enabled(s, e)
    ensures Inv(Step(s, e))
  {
    ChainsKept(s, e);
    if e.StoreStep? {
      StoreStepGuarded(s, e.e);
      StoreMoves(s.store, e.e);
    } else if e.RequestIn? || e.DisposeIn? {
      SectionGuarded(s, e);
      StoreMoves(s.store, StoreEvent(s, e));
    } else {
      ChainStepGuarded(s, e);
    }
    hide Manager.Inv, Chains.Inv, Guarded, StoreMoved;
  }

  ghost predicate CanRun(s: System, events: seq<Event>)
    requires Inv(s)
    decreases |events|
  {
    if events == [] then true
    else
      Enabled(s, events[0]) &&
      (StepKeepsInv(s, events[0]);
       CanRun(Step(s, events[0]), events[1..]))
  }

  ghost function Run(s: System, events: seq<Event>): (t: System)
    requires Inv(s) && CanRun(s, events)
    ensures Inv(t)
    decreases |events|
  {
    if events == [] then s
    else
      StepKeepsInv(s, events[0]);
      Run(Step(s, events[0]), events[1..])
  }

  lemma EmptyInv()
    ensures Inv(EMPTY)
  {
    Manager.EmptyInv();
    Chains.EmptyInv();
  }

  /** In every reachable state, disposing a locked key through its chain completes its teardown: the
      late creation that can outlive the disposal of a bare key does not happen. */
  lemma RequesterTeardownIsComplete(events: seq<Event>, i: nat)
    requires Inv(EMPTY) && CanRun(EMPTY, events)
    requires var s := Run(EMPTY, events); Enabled(s, DisposeIn(i)) && HasWorkChain(s.chains.sections[i].key)
    ensures var s := Run(EMPTY, events);
            var key, t := s.chains.sections[i].key, Step(s, DisposeIn(i)).store;
            && Manager.Vacant(t, key)
            && (forall r :: 0 <= r < |t.created| && t.created[r].key == key ==> r in t.disposed)
            && (forall p :: 0 <= p < |t.producers| && t.producers[p].key == key ==> !Manager.Unsettled(t.producers[p].phase))
  {
    LockedDisposalIsComplete(Run(EMPTY, events), i);
  }
}
