/** Deferred retirement of sessions: a retirement waits for leases, an ordinary one is cancelled by
    reuse, and a required one survives late creation and reuse. */
module Retirement {
  import opened Base
  import opened Sorting
  import opened PublishedRuntimes

  datatype State = State(runtimes: seq<Published>, deferred: set<SessionId>, required: set<SessionId>)

  const EMPTY: State := State([], {}, {})

  /** The runtime a caller asks to retire, with the managed runtimes it is made of. */
  datatype Caller = Caller(session: SessionId, leases: nat, parts: set<nat>)

  predicate HasRuntime(s: State, session: SessionId) {
    exists i :: 0 <= i < |s.runtimes| && s.runtimes[i].session == session
  }

  predicate Leased(s: State, session: SessionId) {
    exists i :: 0 <= i < |s.runtimes| && s.runtimes[i].session == session && s.runtimes[i].leases > 0
  }

  predicate Manages(s: State, session: SessionId, runtime: nat) {
    exists i :: 0 <= i < |s.runtimes| && s.runtimes[i].session == session && s.runtimes[i].runtime == runtime
  }

  function Change(runtimes: seq<Published>, f: Published -> Published): (r: seq<Published>)
    ensures |r| == |runtimes| && forall i :: 0 <= i < |r| ==> r[i] == f(runtimes[i])
  {
    seq(|runtimes|, i requires 0 <= i < |runtimes| => f(runtimes[i]))
  }

  function Revoking(session: SessionId): Published -> Published {
    (p: Published) => if p.session == session then p.(contextRevoked := true) else p
  }

  function Retiring(session: SessionId): Published -> Published {
    (p: Published) => if p.session == session then p.(retiring := true) else p
  }

  /** What stays when a session is disposed: other sessions, and requester runtimes until their chain runs. */
  function Remaining(session: SessionId): Published -> bool {
    (p: Published) => p.session != session || HasWorkChain(p.key)
  }

  // ---------------------------------------------------------------------------
  // Steps
  // ---------------------------------------------------------------------------

  function Defer(s: State, session: SessionId, retain: bool): State {
    var runtimes := if retain then Change(s.runtimes, Revoking(session)) else s.runtimes;
    var required := if retain then s.required + {session} else s.required - {session};
    State(runtimes, if HasRuntime(s, session) || retain then s.deferred + {session} else s.deferred, required)
  }

  /** A required retirement is renewed, any other is cancelled. */
  function ReconciledDeferred(s: State, session: SessionId): set<SessionId> {
    if session in s.required then s.deferred + {session} else s.deferred - {session}
  }

  function Install(s: State, key: Key, runtime: nat, session: SessionId, now: int): State {
    State(s.runtimes + [Published(key, runtime, session, 0, now, session in s.required, false)],
          ReconciledDeferred(s, session), s.required)
  }

  function Reuse(s: State, i: nat): State
    requires i < |s.runtimes|
  {
    var p := s.runtimes[i];
    State(s.runtimes[i := p.(contextRevoked := p.session in s.required)], ReconciledDeferred(s, p.session), s.required)
  }

  /** Removes the bare runtime at once and queues the requester runtimes for removal. */
  function DisposeSession(s: State, session: SessionId, preserveRequired: bool): State {
    State(Change(Filter(s.runtimes, Remaining(session)), Retiring(session)), s.deferred - {session},
          if preserveRequired then s.required else s.required - {session})
  }

  predicate CanComplete(s: State, session: SessionId, caller: Option<Caller>) {
    && session in s.deferred
    && !Leased(s, session) && HasRuntime(s, session)
    && (caller.Some? ==>
          && caller.value.session == session && caller.value.leases == 0
          && forall part :: part in caller.value.parts ==> Manages(s, session, part))
  }

  function Complete(s: State, session: SessionId, caller: Option<Caller>): State {
    if CanComplete(s, session, caller) then DisposeSession(s, session, session in s.required) else s
  }

  /** A runtime leaves the table; the idle sweep also forgets a session this empties. */
  function Remove(s: State, key: Key, bySweep: bool): State {
    var left := s.(runtimes := Filter(s.runtimes, OtherKeys(key)));
    if bySweep then left.(deferred := set e | e in s.deferred && (HasRuntime(left, e) || !HasRuntime(s, e))) else left
  }

  datatype Event =
    | DoDefer(session: SessionId, retain: bool)
    | DoInstall(key: Key, runtime: nat, session: SessionId, now: int)
    | DoReuse(i: nat)
    | DoLease(i: nat, leases: nat)
    | DoComplete(session: SessionId, caller: Option<Caller>)
    | DoDisposeSession(session: SessionId)
    | DoRemove(key: Key, bySweep: bool)
    | DoDisposeAll

  predicate Enabled(s: State, e: Event) {
    match e
    case DoReuse(i) => i < |s.runtimes|
    case DoLease(i, _) => i < |s.runtimes|
    case _ => true
  }

  function Step(s: State, e: Event): State
    requires Enabled(s, e)
  {
    match e
    case DoDefer(session, retain) => Defer(s, session, retain)
    case DoInstall(key, runtime, session, now) => Install(s, key, runtime, session, now)
    case DoReuse(i) => Reuse(s, i)
    case DoLease(i, leases) => s.(runtimes := s.runtimes[i := s.runtimes[i].(leases := leases)])
    case DoComplete(session, caller) => Complete(s, session, caller)
    case DoDisposeSession(session) => DisposeSession(s, session, false)
    case DoRemove(key, bySweep) => Remove(s, key, bySweep)
    case DoDisposeAll => s.(deferred := {}, required := {})
  }

  predicate CanRun(s: State, events: seq<Event>)
    decreases |events|
  {
    events == [] || (Enabled(s, events[0]) && CanRun(Step(s, events[0]), events[1..]))
  }

  function Run(s: State, events: seq<Event>): State
    requires CanRun(s, events)
    decreases |events|
  {
    if events == [] then s else Run(Step(s, events[0]), events[1..])
  }

  // ---------------------------------------------------------------------------
  // A required retirement is never escaped
  // ---------------------------------------------------------------------------

  /** The runtime is cut off and on its way out, now or once its session is no longer leased. */
  ghost predicate CutOff(s: State, p: Published) {
    p.session in s.required ==> p.contextRevoked && (p.retiring || p.session in s.deferred)
  }

  ghost predicate Inv(s: State) {
    forall p :: p in s.runtimes ==> CutOff(s, p)
  }

  lemma DisposeKeepsInv(s: State, session: SessionId, preserve: bool)
    requires Inv(s)
    ensures Inv(DisposeSession(s, session, preserve))
  {
    var t := DisposeSession(s, session, preserve);
    var kept := Filter(s.runtimes, Remaining(session));
    forall p | p in t.runtimes ensures CutOff(t, p) {
      var i :| 0 <= i < |t.runtimes| && t.runtimes[i] == p;
      assert kept[i] in s.runtimes && CutOff(s, kept[i]);
    }
  }

  lemma DeferKeepsInv(s: State, session: SessionId, retain: bool)
    requires Inv(s)
    ensures Inv(Defer(s, session, retain))
  {
    var t := Defer(s, session, retain);
    forall p | p in t.runtimes ensures CutOff(t, p) {
      var i :| 0 <= i < |t.runtimes| && t.runtimes[i] == p;
      assert s.runtimes[i] in s.runtimes && CutOff(s, s.runtimes[i]);
    }
  }

  lemma UpdateKeepsInv(s: State, t: State, i: nat)
    requires Inv(s) && i < |s.runtimes| && |t.runtimes| == |s.runtimes| && t.runtimes == s.runtimes[i := t.runtimes[i]]
    requires t.required == s.required && CutOff(t, t.runtimes[i])
    requires forall e :: e in s.deferred && e in s.required ==> e in t.deferred
    ensures Inv(t)
  {
    forall p | p in t.runtimes ensures CutOff(t, p) {
      var k :| 0 <= k < |t.runtimes| && t.runtimes[k] == p;
      assert k != i ==> s.runtimes[k] == p && p in s.runtimes && CutOff(s, p);
    }
  }

  lemma InstallKeepsInv(s: State, key: Key, runtime: nat, session: SessionId, now: int)
    requires Inv(s)
    ensures Inv(Install(s, key, runtime, session, now))
  {
    var t := Install(s, key, runtime, session, now);
    forall p | p in t.runtimes ensures CutOff(t, p) {
      assert p in s.runtimes ==> CutOff(s, p);
    }
  }

  lemma RemoveKeepsInv(s: State, key: Key, bySweep: bool)
    requires Inv(s)
    ensures Inv(Remove(s, key, bySweep))
  {
    var t := Remove(s, key, bySweep);
    forall p | p in t.runtimes ensures CutOff(t, p) {
      assert p in s.runtimes && CutOff(s, p);
      var k :| 0 <= k < |t.runtimes| && t.runtimes[k] == p;
    }
  }

  lemma StepKeepsInv(s: State, e: Event)
    requires Inv(s) && Enabled(s, e)
    ensures Inv(Step(s, e))
  {
    match e
    case DoDefer(session, retain) => DeferKeepsInv(s, session, retain);
    case DoInstall(key, runtime, session, now) => InstallKeepsInv(s, key, runtime, session, now);
    case DoReuse(i) =>
      assert s.runtimes[i] in s.runtimes && CutOff(s, s.runtimes[i]);
      UpdateKeepsInv(s, Step(s, e), i);
    case DoLease(i, leases) =>
      assert s.runtimes[i] in s.runtimes && CutOff(s, s.runtimes[i]);
      UpdateKeepsInv(s, Step(s, e), i);
    case DoComplete(session, caller) => DisposeKeepsInv(s, session, session in s.required);
    case DoDisposeSession(session) => DisposeKeepsInv(s, session, false);
    case DoRemove(key, bySweep) => RemoveKeepsInv(s, key, bySweep);
    case DoDisposeAll =>
  }

  /** Over every run, every published runtime of a session whose retirement is required has its
      model context revoked and is either being disposed or still due for retirement; so neither a
      late creation nor a reuse escapes. */
  lemma {:induction false} RequiredIsNeverEscaped(s: State, events: seq<Event>)
    requires Inv(s) && CanRun(s, events)
    ensures Inv(Run(s, events))
    decreases |events|
  {
    if events != [] {
      StepKeepsInv(s, events[0]);
      RequiredIsNeverEscaped(Step(s, events[0]), events[1..]);
    }
  }

  /** The requirement is lifted by an ordinary deferral, an explicit disposal or the disposal of everything. */
  predicate Lifts(e: Event, session: SessionId) {
    || (e.DoDefer? && e.session == session && !e.retain)
    || (e.DoDisposeSession? && e.session == session)
    || e.DoDisposeAll?
  }

  /** A required retirement stays required over every run without these, completed retirements included. */
  lemma {:induction false} RequirementSurvives(s: State, events: seq<Event>, session: SessionId)
    requires CanRun(s, events) && session in s.required
    requires forall e :: e in events ==> !Lifts(e, session)
    ensures session in Run(s, events).required
    decreases |events|
  {
    if events != [] {
      assert events[0] in events;
      RequirementSurvives(Step(s, events[0]), events[1..], session);
    }
  }

  /** A required session that has a runtime not yet being disposed can be retired as soon as it is not leased. */
  lemma UnleasedRequiredCompletes(s: State, session: SessionId, p: Published)
    requires Inv(s) && session in s.required && p in s.runtimes && p.session == session && !p.retiring
    ensures CanComplete(s, session, None) <==> !Leased(s, session)
  {
    assert CutOff(s, p);
    var i :| 0 <= i < |s.runtimes| && s.runtimes[i] == p;
    assert HasRuntime(s, session);
  }

  /** Reusing a runtime cancels a pending retirement exactly when it is not required. */
  lemma ReuseCancelsOrdinaryRetirement(s: State, i: nat, caller: Option<Caller>)
    requires i < |s.runtimes|
    ensures var session := s.runtimes[i].session;
            && (session !in s.required ==> !CanComplete(Reuse(s, i), session, caller))
            && (session in s.required ==> (CanComplete(Reuse(s, i), session, None) <==> !Leased(s, session)))
  {
    var session, t := s.runtimes[i].session, Reuse(s, i);
    assert HasRuntime(t, session) by { assert t.runtimes[i].session == session; }
    assert forall k :: 0 <= k < |s.runtimes| ==>
             t.runtimes[k].session == s.runtimes[k].session && t.runtimes[k].leases == s.runtimes[k].leases;
    assert Leased(s, session) ==> Leased(t, session) by {
      if Leased(s, session) {
        var k :| 0 <= k < |s.runtimes| && s.runtimes[k].session == session && s.runtimes[k].leases > 0;
        assert t.runtimes[k].leases > 0;
      }
    }
    assert Leased(t, session) ==> Leased(s, session);
  }

  /** A completed retirement leaves the session unleased, undeferred and with nothing that is not being disposed. */
  lemma CompletionClearsSession(s: State, session: SessionId, caller: Option<Caller>)
    requires CanComplete(s, session, caller)
    ensures var t := Complete(s, session, caller);
            && session !in t.deferred && !Leased(t, session)
            && (session in t.required <==> session in s.required)
            && forall p :: p in t.runtimes && p.session == session ==> p.retiring && HasWorkChain(p.key)
  {
    var t := Complete(s, session, caller);
    var kept := Filter(s.runtimes, Remaining(session));
    forall i | 0 <= i < |t.runtimes| && t.runtimes[i].session == session
      ensures t.runtimes[i].retiring && HasWorkChain(t.runtimes[i].key) && t.runtimes[i].leases == 0
    {
      assert kept[i] in s.runtimes && kept[i] in kept;
      var k :| 0 <= k < |s.runtimes| && s.runtimes[k] == kept[i];
    }
  }

  /** A runtime created late is cut off when the retirement of its session is required, and otherwise usable,
      its session no longer due. */
  lemma LateCreation(s: State, key: Key, runtime: nat, session: SessionId, now: int)
    ensures var t := Install(s, key, runtime, session, now);
            && |t.runtimes| == |s.runtimes| + 1 && t.runtimes[..|s.runtimes|] == s.runtimes && t.required == s.required
            && var p := t.runtimes[|s.runtimes|];
            && p.key == key && p.runtime == runtime && p.session == session && p.leases == 0 && p.lastUsedAt == now && !p.retiring
            && (p.contextRevoked <==> session in s.required)
            && (session in t.deferred <==> session in s.required)
            && (forall other :: other != session ==> (other in t.deferred <==> other in s.deferred))
  {
  }

  /** A removal takes out the runtimes under the key; the sweep alone forgets, and only sessions it empties. */
  lemma RemovalForgets(s: State, key: Key, bySweep: bool)
    ensures var t := Remove(s, key, bySweep);
            && t.required == s.required
            && (forall p :: p in t.runtimes <==> p in s.runtimes && p.key != key)
            && (forall session :: session in s.deferred ==>
                  (session !in t.deferred <==> bySweep && HasRuntime(s, session) && !HasRuntime(t, session)))
            && t.deferred <= s.deferred
  {
  }

  /** The tests over the table, as statements about its members. */
  lemma SessionRuntimes(s: State, session: SessionId)
    ensures HasRuntime(s, session) <==> exists p :: p in s.runtimes && p.session == session
    ensures Leased(s, session) <==> exists p :: p in s.runtimes && p.session == session && p.leases > 0
    ensures forall part :: Manages(s, session, part) <==> exists p :: p in s.runtimes && p.session == session && p.runtime == part
  {
    forall p | p in s.runtimes ensures exists i :: 0 <= i < |s.runtimes| && s.runtimes[i] == p {
    }
  }

  lemma OthersStay(s: State, session: SessionId, preserve: bool)
    ensures forall p :: p in s.runtimes && p.session != session ==> p in DisposeSession(s, session, preserve).runtimes
  {
    var kept, t := Filter(s.runtimes, Remaining(session)), DisposeSession(s, session, preserve);
    forall p | p in s.runtimes && p.session != session ensures p in t.runtimes {
      assert p in kept;
      var i :| 0 <= i < |kept| && kept[i] == p;
      assert t.runtimes[i] == p;
    }
  }

  // ---------------------------------------------------------------------------
  // The manager
  // ---------------------------------------------------------------------------

  class RetirementManager {
    var runtimes: seq<Published>
    var deferred: set<SessionId>
    var required: set<SessionId>

    ghost function View(): State
      reads this
    {
      State(runtimes, deferred, required)
    }

    constructor ()
      ensures View() == EMPTY && Inv(View())
    {
      runtimes, deferred, required := [], {}, {};
    }

    method DeferRetirement(session: SessionId, retainAcrossReuse: bool) returns (deferring: bool)
      requires Inv(View())
      modifies this
      ensures View() == Defer(old(View()), session, retainAcrossReuse) && Inv(View())
      ensures deferring == (HasRuntime(old(View()), session) || retainAcrossReuse)
      ensures deferring <==> retainAcrossReuse || exists p :: p in old(runtimes) && p.session == session
      ensures deferred == if deferring then old(deferred) + {session} else old(deferred)
      ensures required == if retainAcrossReuse then old(required) + {session} else old(required) - {session}
      ensures |runtimes| == |old(runtimes)|
      ensures forall i :: 0 <= i < |runtimes| ==>
                runtimes[i] == if retainAcrossReuse && old(runtimes)[i].session == session
                               then old(runtimes)[i].(contextRevoked := true) else old(runtimes)[i]
    {
      SessionRuntimes(View(), session);
      DeferKeepsInv(View(), session, retainAcrossReuse);
      var has := exists i :: 0 <= i < |runtimes| && runtimes[i].session == session;
      if retainAcrossReuse {
        RevokeContexts(session);
        required := required + {session};
      } else {
        required := required - {session};
      }
      if !has && !retainAcrossReuse {
        return false;
      }
      deferred := deferred + {session};
      return true;
    }

    method RevokeContexts(session: SessionId)
      modifies this`runtimes
      ensures runtimes == Change(old(runtimes), Revoking(session))
    {
      for i := 0 to |runtimes|
        invariant |runtimes| == |old(runtimes)|
        invariant forall k :: 0 <= k < i ==> runtimes[k] == Revoking(session)(old(runtimes)[k])
        invariant forall k :: i <= k < |runtimes| ==> runtimes[k] == old(runtimes)[k]
      {
        if runtimes[i].session == session {
          runtimes := runtimes[i := runtimes[i].(contextRevoked := true)];
        }
      }
    }

    method TotalActiveLeases(session: SessionId) returns (total: nat)
      ensures total > 0 <==> Leased(View(), session)
    {
      total := 0;
      for i := 0 to |runtimes|
        invariant total > 0 <==> exists k :: 0 <= k < i && runtimes[k].session == session && runtimes[k].leases > 0
      {
        if runtimes[i].session == session {
          total := total + runtimes[i].leases;
        }
      }
    }

    method ManagedRuntimes(session: SessionId) returns (managed: set<nat>)
      ensures forall r :: r in managed <==> Manages(View(), session, r)
      ensures managed == {} <==> !HasRuntime(View(), session)
    {
      managed := {};
      for i := 0 to |runtimes|
        invariant forall r :: r in managed <==> exists k :: 0 <= k < i && runtimes[k].session == session && runtimes[k].runtime == r
        invariant managed == {} <==> !exists k :: 0 <= k < i && runtimes[k].session == session
      {
        if runtimes[i].session == session {
          managed := managed + {runtimes[i].runtime};
        }
      }
    }

    method CompleteDeferredRetirement(session: SessionId, caller: Option<Caller>) returns (retired: bool)
      requires Inv(View())
      modifies this
      ensures View() == Complete(old(View()), session, caller) && Inv(View())
      ensures retired == CanComplete(old(View()), session, caller)
      ensures retired <==>
                && session in old(deferred)
                && (exists p :: p in old(runtimes) && p.session == session)
                && (forall p :: p in old(runtimes) && p.session == session ==> p.leases == 0)
                && (caller.Some? ==>
                      && caller.value.session == session && caller.value.leases == 0
                      && forall part :: part in caller.value.parts ==>
                           exists p :: p in old(runtimes) && p.session == session && p.runtime == part)
      ensures if retired then deferred == old(deferred) - {session} && required == old(required) else View() == old(View())
      ensures forall p :: p in old(runtimes) && (!retired || p.session != session) ==> p in runtimes
    {
      SessionRuntimes(View(), session);
      OthersStay(View(), session, session in required);
      DisposeKeepsInv(View(), session, session in required);
      if session !in deferred || (caller.Some? && caller.value.session != session) {
        return false;
      }
      var total := TotalActiveLeases(session);
      if total > 0 || (caller.Some? && caller.value.leases > 0) {
        return false;
      }
      var managed := ManagedRuntimes(session);
      if managed == {} {
        return false;
      }
      if caller.Some? && !(caller.value.parts <= managed) {
        return false;
      }
      DisposeManagedSession(session, session in required);
      return true;
    }

    method DisposeManagedSession(session: SessionId, preserveRequired: bool)
      modifies this
      ensures View() == DisposeSession(old(View()), session, preserveRequired)
    {
      deferred := deferred - {session};
      if !preserveRequired {
        required := required - {session};
      }
      runtimes := Change(Filter(runtimes, Remaining(session)), Retiring(session));
    }

    /** Called whenever a runtime is handed out again. */
    method ReconcileReusableRetirement(i: nat)
      requires i < |runtimes| && Inv(View())
      modifies this
      ensures View() == Reuse(old(View()), i) && Inv(View())
      ensures var session := old(runtimes)[i].session;
              && runtimes == old(runtimes)[i := old(runtimes)[i].(contextRevoked := session in old(required))]
              && deferred == (if session in old(required) then old(deferred) + {session} else old(deferred) - {session})
              && required == old(required)
    {
      StepKeepsInv(View(), DoReuse(i));
      var session := runtimes[i].session;
      if session in required {
        deferred := deferred + {session};
        runtimes := runtimes[i := runtimes[i].(contextRevoked := true)];
        return;
      }
      deferred := deferred - {session};
      runtimes := runtimes[i := runtimes[i].(contextRevoked := false)];
    }
  }
}
