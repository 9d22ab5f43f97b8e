/** Prepared run admissions: admit and close race around an asynchronous callback, each admission
    holds a delegated authority, recovery evidence is one-shot, and recovery leases are released
    by identity. */
module RunAdmission {
  import opened Base

  type RunId = string

  // ---------------------------------------------------------------------------
  // Recovery evidence
  // ---------------------------------------------------------------------------

  datatype Token = Token(id: nat, run: RunId)

  datatype Recovery = Recovery(retryOnly: bool, token: Option<Token>, expected: Option<RunId>, consumed: bool)

  datatype Redemption = Redemption(accepted: bool, token: Option<Token>)

  /** What presenting the evidence for a run yields; afterwards it is used up in any case. */
  function Redeem(r: Recovery, run: RunId): Redemption {
    if r.consumed then Redemption(false, None)
    else if r.expected.Some? && r.expected.value != run then Redemption(false, None)
    else Redemption(true, if r.expected.Some? || (r.token.Some? && r.token.value.run == run) then r.token else None)
  }

  class RecoveryAdmission {
    const retryOnly: bool
    const token: Option<Token>
    const expected: Option<RunId>
    var consumed: bool

    constructor (retryOnly: bool, token: Option<Token>, expected: Option<RunId>)
      ensures View() == Recovery(retryOnly, token, expected, false)
    {
      this.retryOnly, this.token, this.expected, this.consumed := retryOnly, token, expected, false;
    }

    ghost function View(): Recovery
      reads this
    {
      Recovery(retryOnly, token, expected, consumed)
    }

    method Consume(run: RunId) returns (r: Redemption)
      modifies this
      ensures r == Redeem(old(View()), run)
      ensures View() == old(View()).(consumed := true)
      ensures r.accepted <==> !old(consumed) && (expected == None || expected == Some(run))
      ensures r.token == if r.accepted && token.Some? && (expected.Some? || token.value.run == run) then token else None
    {
      if consumed {
        return Redemption(false, None);
      }
      consumed := true;
      if expected.Some? && expected.value != run {
        return Redemption(false, None);
      }
      if expected.Some? || (token.Some? && token.value.run == run) {
        return Redemption(true, token);
      }
      return Redemption(true, None);
    }
  }

  // ---------------------------------------------------------------------------
  // State
  // ---------------------------------------------------------------------------

  datatype Authority = Authority(instance: nat, run: RunId, generation: nat, claim: nat)

  /** A context with its authority lease; `redeemed` is the recovery whose token it carries. */
  datatype Context = Context(
    instance: nat,
    run: RunId,
    token: Option<Token>,
    redeemed: Option<nat>,
    authority: Authority,
    foregroundClosed: bool)

  datatype Phase = Calling | Fulfilled | Rejected

  /** One run of the admission body; no context means that it threw before one existed. */
  datatype Attempt = Attempt(admission: nat, context: Option<nat>, phase: Phase)

  /** `starting` are the bodies whose callback has been entered but not yet left for the first
      time, innermost last; `promise` is what later admits return. */
  datatype Admission = Admission(
    instance: nat,
    run: RunId,
    recovery: Option<nat>,
    closed: bool,
    starting: seq<nat>,
    promise: Option<nat>,
    context: Option<nat>)

  datatype Handle = Handle(run: RunId, context: nat)

  /** `registry` maps a run to its delegated authority; `holders` to the handle that retains it. */
  datatype World = World(
    generation: nat,
    registry: map<RunId, Authority>,
    nextClaim: nat,
    nextToken: nat,
    admissions: seq<Admission>,
    attempts: seq<Attempt>,
    contexts: seq<Context>,
    handles: seq<Handle>,
    holders: map<RunId, nat>,
    recoveries: seq<Recovery>)

  const EMPTY: World := World(0, map[], 0, 0, [], [], [], [], map[], [])

  // ---------------------------------------------------------------------------
  // Authorities
  // ---------------------------------------------------------------------------

  /** The exact claim is still the run's, in the current lifecycle. */
  predicate Validates(w: World, a: Authority) {
    && a.run in w.registry && a.generation == w.generation
    && w.registry[a.run] == a
  }

  /** The authority a context shows. */
  predicate Visible(w: World, c: nat)
    requires c < |w.contexts|
  {
    !w.contexts[c].foregroundClosed && Validates(w, w.contexts[c].authority)
  }

  predicate Reusable(w: World, instance: nat, run: RunId) {
    run in w.registry && w.registry[run].instance == instance && w.registry[run].generation == w.generation
  }

  function ClaimedAuthority(w: World, instance: nat, run: RunId): Authority {
    if Reusable(w, instance, run) then w.registry[run] else Authority(instance, run, w.generation, w.nextClaim)
  }

  function CloseContext(w: World, c: nat): World
    requires c < |w.contexts|
  {
    if w.contexts[c].foregroundClosed then w
    else
      var a := w.contexts[c].authority;
      w.(contexts := w.contexts[c := w.contexts[c].(foregroundClosed := true)],
         registry := if Validates(w, a) then w.registry - {a.run} else w.registry)
  }

  // ---------------------------------------------------------------------------
  // Steps
  // ---------------------------------------------------------------------------

  function AdmissionRecovery(w: World, a: Admission): Redemption {
    if a.recovery.Some? && a.recovery.value < |w.recoveries| then Redeem(w.recoveries[a.recovery.value], a.run)
    else Redemption(false, None)
  }

  function UseUp(w: World, a: Admission): seq<Recovery> {
    if a.recovery.Some? && a.recovery.value < |w.recoveries|
    then w.recoveries[a.recovery.value := w.recoveries[a.recovery.value].(consumed := true)]
    else w.recoveries
  }

  predicate RetryOnly(w: World, a: Admission) {
    a.recovery.Some? && a.recovery.value < |w.recoveries| && w.recoveries[a.recovery.value].retryOnly
  }

  /** The token of a new context: recovered evidence, else a new token unless a recovery forbids it. */
  function ContextToken(w: World, a: Admission, collecting: bool): Option<Token> {
    var r := AdmissionRecovery(w, a);
    if !collecting then None
    else if r.token.Some? then r.token
    else if a.recovery.None? || (r.accepted && !RetryOnly(w, a)) then Some(Token(w.nextToken, a.run))
    else None
  }

  function NewContext(w: World, a: Admission, collecting: bool): Context {
    Context(a.instance, a.run, ContextToken(w, a, collecting),
            if collecting && AdmissionRecovery(w, a).token.Some? then a.recovery else None,
            ClaimedAuthority(w, a.instance, a.run), false)
  }

  /** What goes wrong in a claim: a blank instance, or the run context refuses another owner. */
  datatype ClaimFault = NoFault | BlankInstance | ContextRefused

  /** How an admission body gets on until it has claimed its authority. */
  datatype Body = Claims(fault: ClaimFault) | ThrowsAtFacts | ThrowsAfterEvidence

  predicate ClaimSucceeds(w: World, instance: nat, run: RunId, fault: ClaimFault) {
    fault.NoFault? || (fault.ContextRefused? && Reusable(w, instance, run))
  }

  /** A refused claim has already retired the authority it was to replace. */
  function RegistryAfterClaim(w: World, instance: nat, run: RunId, fault: ClaimFault): map<RunId, Authority> {
    if ClaimSucceeds(w, instance, run, fault) then w.registry[run := ClaimedAuthority(w, instance, run)]
    else if fault.BlankInstance? then w.registry
    else w.registry - {run}
  }

  /** A body that throws before the callback: its rejected promise is stored at once. */
  function FailAttempt(w: World, i: nat): World
    requires i < |w.admissions|
  {
    w.(attempts := w.attempts + [Attempt(i, None, Rejected)],
       admissions := w.admissions[i := w.admissions[i].(promise := Some(|w.attempts|))])
  }

  /** The body has its context and enters the callback. */
  function EnterCallback(w: World, i: nat, c: Context): World
    requires i < |w.admissions|
  {
    var a := w.admissions[i];
    w.(contexts := w.contexts + [c],
       nextClaim := w.nextClaim + 1,
       nextToken := w.nextToken + 1,
       attempts := w.attempts + [Attempt(i, Some(|w.contexts|), Calling)],
       admissions := w.admissions[i := a.(starting := a.starting + [|w.attempts|], context := Some(|w.contexts|))])
  }

  /** The admission body up to the callback's first await. Evidence is used up before anything that
      can fail later, and the run's recovery holder goes before the claim. */
  function Begin(w: World, i: nat, collecting: bool, body: Body): World
    requires i < |w.admissions|
  {
    var a := w.admissions[i];
    match body
    case ThrowsAtFacts => FailAttempt(w, i)
    case ThrowsAfterEvidence => FailAttempt(w.(recoveries := UseUp(w, a)), i)
    case Claims(fault) =>
      var claimed := w.(recoveries := UseUp(w, a), holders := w.holders - {a.run},
                        registry := RegistryAfterClaim(w, a.instance, a.run, fault));
      if ClaimSucceeds(w, a.instance, a.run, fault) then EnterCallback(claimed, i, NewContext(w, a, collecting))
      else FailAttempt(claimed, i)
  }

  /** The token a context gets: none unless identities are collected; the recovery's, when it is unused,
      bound to no other run, and its token is the run's own or bound to the run by the resolver; otherwise
      a new token for the run, unless there is a recovery that is refused or only retries. */
  predicate TokenFor(
    token: Option<Token>, redeemed: Option<nat>, a: Admission, collecting: bool, next: nat, recoveries: seq<Recovery>)
  {
    if !collecting then token == None && redeemed == None
    else if a.recovery == None then token == Some(Token(next, a.run)) && redeemed == None
    else if a.recovery.value >= |recoveries| then token == None && redeemed == None
    else
      var r := recoveries[a.recovery.value];
      var accepted := !r.consumed && (r.expected == None || r.expected == Some(a.run));
      if accepted && r.token.Some? && (r.expected.Some? || r.token.value.run == a.run)
      then token == r.token && redeemed == a.recovery
      else redeemed == None && token == if accepted && !r.retryOnly then Some(Token(next, a.run)) else None
  }

  /** The run's registered authority is this very one, of the current lifecycle. */
  predicate InAuthority(a: Authority, registry: map<RunId, Authority>, generation: nat) {
    a.run in registry && registry[a.run] == a && a.generation == generation
  }

  /** What is left of an admission body wherever it ended: evidence is used up unless the facts were refused;
      the recovery holder of the run goes when the claim is tried; and only a claim that is granted, because
      nothing is wrong or because the live authority of the same instance is reused, makes a context. */
  lemma BodyExactly(w: World, i: nat, collecting: bool, body: Body)
    requires i < |w.admissions|
    ensures var a, v := w.admissions[i], Begin(w, i, collecting, body);
            var live := a.run in w.registry && w.registry[a.run].instance == a.instance && w.registry[a.run].generation == w.generation;
            var granted := body == Claims(NoFault) || (body == Claims(ContextRefused) && live);
            && v.recoveries == (if body != ThrowsAtFacts && a.recovery.Some? && a.recovery.value < |w.recoveries|
                                then w.recoveries[a.recovery.value := w.recoveries[a.recovery.value].(consumed := true)]
                                else w.recoveries)
            && v.holders == (if body.Claims? then w.holders - {a.run} else w.holders)
            && v.attempts == w.attempts + [if granted then Attempt(i, Some(|w.contexts|), Calling) else Attempt(i, None, Rejected)]
            && |v.contexts| == |w.contexts| + (if granted then 1 else 0) && v.contexts[..|w.contexts|] == w.contexts
            && (granted ==>
                  var c := v.contexts[|w.contexts|];
                  && c.run == a.run && c.instance == a.instance && !c.foregroundClosed
                  && TokenFor(c.token, c.redeemed, a, collecting, w.nextToken, w.recoveries)
                  && a.run in v.registry && v.registry[a.run] == c.authority
                  && c.authority == if live then w.registry[a.run] else Authority(a.instance, a.run, w.generation, w.nextClaim))
            && v.registry == (if granted then v.registry else if body == Claims(ContextRefused) then w.registry - {a.run} else w.registry)
            && (forall run :: run != a.run ==> (run in v.registry <==> run in w.registry))
            && (forall run :: run != a.run && run in w.registry ==> v.registry[run] == w.registry[run])
  {
    if body.Claims? && ClaimSucceeds(w, w.admissions[i].instance, w.admissions[i].run, body.fault) {
      TokenOfContext(w, w.admissions[i], collecting);
    }
    hide ContextToken, AdmissionRecovery, TokenFor;
  }

  lemma TokenOfContext(w: World, a: Admission, collecting: bool)
    ensures var c := NewContext(w, a, collecting);
            TokenFor(c.token, c.redeemed, a, collecting, w.nextToken, w.recoveries)
  {
  }

  /** A closed admission rejects; one that has begun answers with its promise. */
  function Admit(w: World, i: nat, collecting: bool, body: Body): World
    requires i < |w.admissions|
  {
    if w.admissions[i].closed || w.admissions[i].promise.Some? then w else Begin(w, i, collecting, body)
  }

  /** The innermost body reaches its first await and its promise is stored. */
  function SyncDone(w: World, i: nat): World
    requires i < |w.admissions| && w.admissions[i].starting != []
  {
    var a := w.admissions[i];
    var n := |a.starting| - 1;
    w.(admissions := w.admissions[i := a.(starting := a.starting[..n], promise := Some(a.starting[n]))])
  }

  function SettleAttempt(w: World, k: nat, phase: Phase): World
    requires k < |w.attempts|
  {
    w.(attempts := w.attempts[k := w.attempts[k].(phase := phase)])
  }

  predicate IsCalling(w: World, k: nat) {
    && k < |w.attempts| && w.attempts[k].phase.Calling?
    && w.attempts[k].context.Some? && w.attempts[k].context.value < |w.contexts|
    && w.attempts[k].admission < |w.admissions|
  }

  /** The callback has returned: the admission stands only if still open and still in authority. */
  function Returned(w: World, k: nat): World
    requires IsCalling(w, k)
  {
    var c := w.attempts[k].context.value;
    if w.admissions[w.attempts[k].admission].closed || !Visible(w, c)
    then SettleAttempt(CloseContext(w, c), k, Rejected)
    else SettleAttempt(w, k, Fulfilled)
  }

  function Threw(w: World, k: nat): World
    requires IsCalling(w, k)
  {
    SettleAttempt(CloseContext(w, w.attempts[k].context.value), k, Rejected)
  }

  function CloseAdmission(w: World, i: nat): World
    requires i < |w.admissions|
  {
    var a := w.admissions[i];
    var marked := w.(admissions := w.admissions[i := a.(closed := true)]);
    if a.context.Some? && a.context.value < |w.contexts| then CloseContext(marked, a.context.value) else marked
  }

  predicate CanRetain(w: World, c: nat)
    requires c < |w.contexts|
  {
    w.contexts[c].run !in w.holders && Visible(w, c)
  }

  function Retain(w: World, c: nat): World
    requires c < |w.contexts|
  {
    if CanRetain(w, c)
    then w.(handles := w.handles + [Handle(w.contexts[c].run, c)], holders := w.holders[w.contexts[c].run := |w.handles|])
    else w
  }

  /** The handle's lease is the one retained for its run. */
  predicate Holding(w: World, h: nat)
    requires h < |w.handles|
  {
    var run := w.handles[h].run;
    run in w.holders && w.holders[run] < |w.handles| && w.handles[w.holders[run]].context == w.handles[h].context
  }

  function ReleaseHandle(w: World, h: nat): World
    requires h < |w.handles|
  {
    if Holding(w, h) then w.(holders := w.holders - {w.handles[h].run}) else w
  }

  datatype Event =
    | DoPrepare(instance: nat, run: RunId, recovery: Option<nat>)
    | DoRecovery(retryOnly: bool, token: Option<Token>, expected: Option<RunId>)
    | DoAdmit(i: nat, collecting: bool, body: Body)
    | DoSyncDone(i: nat)
    | DoReturned(k: nat)
    | DoThrew(k: nat)
    | DoClose(i: nat)
    | DoRetain(c: nat)
    | DoRelease(h: nat)
    | DoClear(run: RunId)
    | DoNewGeneration

  /** `DoClear` is another owner clearing the run's registry entry. A callback that awaits returns
      only after its body's promise is stored. */
  predicate Enabled(w: World, e: Event) {
    match e
    case DoAdmit(i, _, _) => i < |w.admissions|
    case DoSyncDone(i) => i < |w.admissions| && w.admissions[i].starting != []
    case DoReturned(k) => IsCalling(w, k) && k !in w.admissions[w.attempts[k].admission].starting
    case DoThrew(k) => IsCalling(w, k)
    case DoClose(i) => i < |w.admissions|
    case DoRetain(c) => c < |w.contexts|
    case DoRelease(h) => h < |w.handles|
    case _ => true
  }

  function Step(w: World, e: Event): World
    requires Enabled(w, e)
  {
    match e
    case DoPrepare(instance, run, recovery) =>
      w.(admissions := w.admissions + [Admission(instance, run, recovery, false, [], None, None)])
    case DoRecovery(retryOnly, token, expected) => w.(recoveries := w.recoveries + [Recovery(retryOnly, token, expected, false)])
    case DoAdmit(i, collecting, body) => Admit(w, i, collecting, body)
    case DoSyncDone(i) => SyncDone(w, i)
    case DoReturned(k) => Returned(w, k)
    case DoThrew(k) => Threw(w, k)
    case DoClose(i) => CloseAdmission(w, i)
    case DoRetain(c) => Retain(w, c)
    case DoRelease(h) => ReleaseHandle(w, h)
    case DoClear(run) => w.(registry := w.registry - {run})
    case DoNewGeneration => w.(generation := w.generation + 1)
  }

  predicate CanRun(w: World, events: seq<Event>)
    decreases |events|
  {
    events == [] || (Enabled(w, events[0]) && CanRun(Step(w, events[0]), events[1..]))
  }

  function Run(w: World, events: seq<Event>): World
    requires CanRun(w, events)
    decreases |events|
  {
    if events == [] then w else Run(Step(w, events[0]), events[1..])
  }

  /** The admit starts a body. */
  predicate Begins(w: World, e: Event) {
    e.DoAdmit? && e.i < |w.admissions| && !w.admissions[e.i].closed && w.admissions[e.i].promise.None?
  }

  /** And that body gets as far as its callback. */
  predicate BeginsContext(w: World, e: Event) {
    Begins(w, e) && e.body.Claims? && ClaimSucceeds(w, w.admissions[e.i].instance, w.admissions[e.i].run, e.body.fault)
  }

  // ---------------------------------------------------------------------------
  // One attempt per admission
  // ---------------------------------------------------------------------------

  ghost predicate HasAttempt(w: World, i: nat) {
    exists k :: 0 <= k < |w.attempts| && w.attempts[k].admission == i
  }

  ghost predicate HasTwoAttempts(w: World, i: nat) {
    exists k, m :: 0 <= k < m < |w.attempts| && w.attempts[k].admission == i && w.attempts[m].admission == i
  }

  /** An admission has begun exactly when a body is starting or a promise is stored. */
  ghost predicate BegunOk(w: World) {
    && (forall k :: 0 <= k < |w.attempts| ==> w.attempts[k].admission < |w.admissions|)
    && (forall i: nat :: i < |w.admissions| ==>
          (HasAttempt(w, i) <==> w.admissions[i].starting != [] || w.admissions[i].promise.Some?))
  }

  /** A body begins on the admission while another one's callback has not reached its first await. */
  predicate ReentersNow(w: World, e: Event, i: nat) {
    Begins(w, e) && e.i == i && w.admissions[i].starting != []
  }

  predicate Reenters(w: World, events: seq<Event>, i: nat)
    requires CanRun(w, events)
    decreases |events|
  {
    events != [] && (ReentersNow(w, events[0], i) || Reenters(Step(w, events[0]), events[1..], i))
  }

  lemma BeginAttempts(w: World, i: nat, collecting: bool, body: Body)
    requires i < |w.admissions|
    ensures var v := Begin(w, i, collecting, body);
            && |v.attempts| == |w.attempts| + 1 && v.attempts[..|w.attempts|] == w.attempts
            && v.attempts[|w.attempts|].admission == i
            && |v.admissions| == |w.admissions|
            && (forall j :: 0 <= j < |w.admissions| && j != i ==> v.admissions[j] == w.admissions[j])
            && (v.admissions[i].starting != [] || v.admissions[i].promise.Some?)
  {
    hide NewContext, UseUp, RegistryAfterClaim;
  }

  lemma OtherStepsKeepAttempts(w: World, e: Event)
    requires Enabled(w, e) && !Begins(w, e)
    ensures var v := Step(w, e);
            && |v.attempts| == |w.attempts| && |v.admissions| >= |w.admissions|
            && (forall k :: 0 <= k < |w.attempts| ==> v.attempts[k].admission == w.attempts[k].admission)
            && (forall i :: 0 <= i < |w.admissions| ==>
                  (v.admissions[i].starting != [] || v.admissions[i].promise.Some?
                   <==> w.admissions[i].starting != [] || w.admissions[i].promise.Some?))
            && (forall i :: |w.admissions| <= i < |v.admissions| ==>
                  v.admissions[i].starting == [] && v.admissions[i].promise.None?)
  {
    hide Visible, CloseContext, Begin;
    if e.DoReturned? || e.DoThrew? {
      CloseContextKept(w, w.attempts[e.k].context.value);
    } else if e.DoClose? {
      var a := w.admissions[e.i];
      if a.context.Some? && a.context.value < |w.contexts| {
        CloseContextKept(w.(admissions := w.admissions[e.i := a.(closed := true)]), a.context.value);
      }
    }
  }

  lemma StepKeepsBegun(w: World, e: Event)
    requires BegunOk(w) && Enabled(w, e)
    ensures BegunOk(Step(w, e))
    ensures forall i: nat :: i < |w.admissions| ==>
              (HasTwoAttempts(Step(w, e), i) <==> HasTwoAttempts(w, i) || ReentersNow(w, e, i))
  {
    var v := Step(w, e);
    if Begins(w, e) {
      hide Begin, Step;
      assert v == Begin(w, e.i, e.collecting, e.body) by { AdmitBegins(w, e); }
      BeginAttempts(w, e.i, e.collecting, e.body);
      AttemptAdded(w, v, e.i);
    } else {
      hide Step;
      OtherStepsKeepAttempts(w, e);
      AttemptsSame(w, v);
    }
  }

  lemma AdmitBegins(w: World, e: Event)
    requires Begins(w, e) && Enabled(w, e)
    ensures Step(w, e) == Begin(w, e.i, e.collecting, e.body)
  {
  }

  lemma AttemptAdded(w: World, v: World, i: nat)
    requires BegunOk(w) && i < |w.admissions| == |v.admissions| && w.admissions[i].promise.None?
    requires |v.attempts| == |w.attempts| + 1 && v.attempts[..|w.attempts|] == w.attempts
    requires v.attempts[|w.attempts|].admission == i
    requires forall j :: 0 <= j < |w.admissions| && j != i ==> v.admissions[j] == w.admissions[j]
    requires v.admissions[i].starting != [] || v.admissions[i].promise.Some?
    ensures BegunOk(v)
    ensures forall j: nat :: j < |w.admissions| ==>
              (HasTwoAttempts(v, j) <==> HasTwoAttempts(w, j) || (j == i && w.admissions[i].starting != []))
  {
    assert forall k :: 0 <= k < |w.attempts| ==> v.attempts[k] == v.attempts[..|w.attempts|][k] == w.attempts[k];
    assert HasAttempt(v, i) by { assert v.attempts[|w.attempts|].admission == i; }
    forall j: nat | j < |w.admissions| ensures HasAttempt(w, j) ==> HasAttempt(v, j) {
      if HasAttempt(w, j) {
        var k :| 0 <= k < |w.attempts| && w.attempts[k].admission == j;
        assert v.attempts[k].admission == j;
      }
    }
    forall j: nat | j < |w.admissions|
      ensures HasTwoAttempts(v, j) <==> HasTwoAttempts(w, j) || (j == i && w.admissions[i].starting != [])
    {
      if HasTwoAttempts(w, j) {
        var k, m :| 0 <= k < m < |w.attempts| && w.attempts[k].admission == j && w.attempts[m].admission == j;
        assert v.attempts[k].admission == j && v.attempts[m].admission == j;
      }
      if j == i && HasAttempt(w, i) {
        var k :| 0 <= k < |w.attempts| && w.attempts[k].admission == i;
        assert v.attempts[k].admission == i && v.attempts[|w.attempts|].admission == i;
      }
    }
  }

  lemma AttemptsSame(w: World, v: World)
    requires BegunOk(w) && |v.attempts| == |w.attempts| && |v.admissions| >= |w.admissions|
    requires forall k :: 0 <= k < |w.attempts| ==> v.attempts[k].admission == w.attempts[k].admission
    requires forall i :: 0 <= i < |w.admissions| ==>
               (v.admissions[i].starting != [] || v.admissions[i].promise.Some?
                <==> w.admissions[i].starting != [] || w.admissions[i].promise.Some?)
    requires forall i :: |w.admissions| <= i < |v.admissions| ==> v.admissions[i].starting == [] && v.admissions[i].promise.None?
    ensures BegunOk(v)
    ensures forall i: nat :: HasTwoAttempts(v, i) <==> HasTwoAttempts(w, i)
  {
    assert forall i: nat :: HasAttempt(v, i) <==> HasAttempt(w, i);
    forall i: nat ensures HasTwoAttempts(v, i) <==> HasTwoAttempts(w, i) {
      if HasTwoAttempts(w, i) {
        var k, m :| 0 <= k < m < |w.attempts| && w.attempts[k].admission == i && w.attempts[m].admission == i;
        assert v.attempts[k].admission == i && v.attempts[m].admission == i;
      }
      if HasTwoAttempts(v, i) {
        var k, m :| 0 <= k < m < |v.attempts| && v.attempts[k].admission == i && v.attempts[m].admission == i;
        assert w.attempts[k].admission == i && w.attempts[m].admission == i;
      }
    }
  }

  lemma {:induction false} RunAttempts(w: World, events: seq<Event>, i: nat)
    requires BegunOk(w) && CanRun(w, events)
    requires i < |w.admissions| || (!HasTwoAttempts(w, i) && i >= |w.admissions|)
    ensures BegunOk(Run(w, events))
    ensures HasTwoAttempts(Run(w, events), i) <==> HasTwoAttempts(w, i) || Reenters(w, events, i)
    decreases |events|
  {
    if events != [] {
      var v := Step(w, events[0]);
      StepKeepsBegun(w, events[0]);
      assert i >= |w.admissions| ==> !HasTwoAttempts(v, i) && !ReentersNow(w, events[0], i) by {
        NewAdmissionHasNone(w, events[0], i);
      }
      RunAttempts(v, events[1..], i);
    }
  }

  lemma NewAdmissionHasNone(w: World, e: Event, i: nat)
    requires BegunOk(w) && Enabled(w, e)
    ensures i >= |w.admissions| ==> !HasTwoAttempts(Step(w, e), i) && !ReentersNow(w, e, i)
  {
    if Begins(w, e) {
      BeginAttempts(w, e.i, e.collecting, e.body);
      hide Begin;
      var v := Step(w, e);
      assert forall k :: 0 <= k < |w.attempts| ==> v.attempts[k] == v.attempts[..|w.attempts|][k];
    } else {
      OtherStepsKeepAttempts(w, e);
    }
  }

  /** Over every run an admission has more than one attempt exactly when an admit began a body on it
      while the callback of an earlier one had not reached its first await. */
  lemma SecondAttemptExactly(events: seq<Event>, i: nat)
    requires CanRun(EMPTY, events)
    ensures HasTwoAttempts(Run(EMPTY, events), i) <==> Reenters(EMPTY, events, i)
  {
    RunAttempts(EMPTY, events, i);
  }

  /** Over every run, an admission that is not re-entered has one attempt; the promise that admits
      answer and any body still starting are that attempt, and the admission's context is its context.
      So all successful admits return one context. */
  lemma OneContextPerAdmission(events: seq<Event>, i: nat, k: nat)
    requires CanRun(EMPTY, events) && !Reenters(EMPTY, events, i) && AttemptOf(Run(EMPTY, events), i, k)
    ensures var w := Run(EMPTY, events);
            && (forall m: nat :: AttemptOf(w, i, m) ==> m == k)
            && i < |w.admissions|
            && (w.admissions[i].promise.Some? ==> w.admissions[i].promise.value == k)
            && (forall m :: m in w.admissions[i].starting ==> m == k)
            && w.admissions[i].context == w.attempts[k].context
  {
    var w := Run(EMPTY, events);
    SecondAttemptExactly(events, i);
    RunAttempts(EMPTY, events, i);
    RunKeepsAnswers(EMPTY, events);
    assert AnswersOk(w, i);
    forall m: nat | AttemptOf(w, i, m) ensures m == k {
      assert m < k || k < m ==> HasTwoAttempts(w, i);
    }
  }

  // ---------------------------------------------------------------------------
  // What admits answer
  // ---------------------------------------------------------------------------

  predicate AttemptOf(w: World, i: nat, k: nat) {
    k < |w.attempts| && w.attempts[k].admission == i
  }

  /** The context is that of an attempt of the admission. */
  ghost predicate FromAttempt(w: World, i: nat, context: Option<nat>) {
    exists k: nat :: AttemptOf(w, i, k) && w.attempts[k].context == context
  }

  /** An admission's promise, starting bodies and latest context are of its own attempts; an attempt
      with a context has left one with the admission. */
  ghost predicate AnswersOk(w: World, i: nat)
    requires i < |w.admissions|
  {
    var a := w.admissions[i];
    && (a.promise.Some? ==> AttemptOf(w, i, a.promise.value))
    && (forall k :: k in a.starting ==> AttemptOf(w, i, k))
    && (a.context.Some? ==> FromAttempt(w, i, a.context))
    && (forall k: nat :: AttemptOf(w, i, k) && w.attempts[k].context.Some? ==> a.context.Some?)
  }

  ghost predicate AllAnswersOk(w: World) {
    forall i: nat :: i < |w.admissions| ==> AnswersOk(w, i)
  }

  /** Attempts are only added, and keep their admission and context. */
  ghost predicate AttemptsKept(w: World, v: World) {
    && |w.attempts| <= |v.attempts|
    && forall k :: 0 <= k < |w.attempts| ==>
         v.attempts[k].admission == w.attempts[k].admission && v.attempts[k].context == w.attempts[k].context
  }

  lemma BeginAnswers(w: World, i: nat, collecting: bool, body: Body)
    requires i < |w.admissions|
    ensures var v, n := Begin(w, i, collecting, body), |w.attempts|;
            var a, b := w.admissions[i], v.admissions[i];
            && AttemptsKept(w, v) && |v.attempts| == n + 1 && |v.admissions| == |w.admissions|
            && v.attempts[n].admission == i
            && (forall j :: 0 <= j < |w.admissions| && j != i ==> v.admissions[j] == w.admissions[j])
            && (if v.attempts[n].context.Some?
                then b.starting == a.starting + [n] && b.promise == a.promise && b.context == v.attempts[n].context
                else b.starting == a.starting && b.promise == Some(n) && b.context == a.context)
  {
    hide NewContext, UseUp, RegistryAfterClaim, ClaimSucceeds;
  }

  /** Steps that begin nothing store at most a starting body as the promise. */
  lemma OtherStepsAnswer(w: World, e: Event)
    requires Enabled(w, e) && !Begins(w, e)
    ensures var v := Step(w, e);
            && AttemptsKept(w, v) && |v.attempts| == |w.attempts| && |v.admissions| >= |w.admissions|
            && (forall i :: 0 <= i < |w.admissions| ==>
                  && v.admissions[i].context == w.admissions[i].context
                  && (forall k :: k in v.admissions[i].starting ==> k in w.admissions[i].starting)
                  && (w.admissions[i].starting == [] ==> v.admissions[i].starting == [])
                  && (v.admissions[i].promise == w.admissions[i].promise
                      || (v.admissions[i].promise.Some? && v.admissions[i].promise.value in w.admissions[i].starting)))
            && (forall i :: |w.admissions| <= i < |v.admissions| ==>
                  v.admissions[i].starting == [] && v.admissions[i].promise.None? && v.admissions[i].context.None?)
  {
    hide Visible, CloseContext, Begin;
    if e.DoReturned? || e.DoThrew? {
      CloseContextKept(w, w.attempts[e.k].context.value);
    } else if e.DoClose? {
      var a := w.admissions[e.i];
      if a.context.Some? && a.context.value < |w.contexts| {
        CloseContextKept(w.(admissions := w.admissions[e.i := a.(closed := true)]), a.context.value);
      }
    }
  }

  lemma AnswersKept(w: World, v: World, i: nat)
    requires i < |w.admissions| && i < |v.admissions| && AnswersOk(w, i) && AttemptsKept(w, v)
    requires forall k :: |w.attempts| <= k < |v.attempts| ==> v.attempts[k].admission != i
    requires v.admissions[i].context == w.admissions[i].context
    requires forall k :: k in v.admissions[i].starting ==> k in w.admissions[i].starting
    requires v.admissions[i].promise == w.admissions[i].promise
             || (v.admissions[i].promise.Some? && v.admissions[i].promise.value in w.admissions[i].starting)
    ensures AnswersOk(v, i)
  {
    var a := w.admissions[i];
    if a.context.Some? {
      var k: nat :| AttemptOf(w, i, k) && w.attempts[k].context == a.context;
      assert AttemptOf(v, i, k) && v.attempts[k].context == a.context;
    }
    forall k: nat | AttemptOf(v, i, k) && v.attempts[k].context.Some? ensures a.context.Some? {
      assert AttemptOf(w, i, k);
    }
  }

  lemma BeganAnswers(w: World, v: World, i: nat)
    requires i < |w.admissions| && i < |v.admissions| && AnswersOk(w, i) && AttemptsKept(w, v)
    requires |v.attempts| == |w.attempts| + 1 && v.attempts[|w.attempts|].admission == i
    requires var a, b, n := w.admissions[i], v.admissions[i], |w.attempts|;
             if v.attempts[n].context.Some?
             then b.starting == a.starting + [n] && b.promise == a.promise && b.context == v.attempts[n].context
             else b.starting == a.starting && b.promise == Some(n) && b.context == a.context
    ensures AnswersOk(v, i)
  {
    var a, b, n := w.admissions[i], v.admissions[i], |w.attempts|;
    assert AttemptOf(v, i, n);
    if v.attempts[n].context.None? && a.context.Some? {
      var k: nat :| AttemptOf(w, i, k) && w.attempts[k].context == a.context;
      assert AttemptOf(v, i, k) && v.attempts[k].context == a.context;
    }
    forall k: nat | AttemptOf(v, i, k) && v.attempts[k].context.Some? ensures b.context.Some? {
      assert k < n ==> AttemptOf(w, i, k);
    }
    assert forall k :: k in a.starting ==> AttemptOf(w, i, k);
  }

  lemma NewAdmissionAnswers(w: World, v: World, i: nat)
    requires BegunOk(w) && AttemptsKept(w, v) && |v.attempts| == |w.attempts| && |w.admissions| <= i < |v.admissions|
    requires v.admissions[i].starting == [] && v.admissions[i].promise.None? && v.admissions[i].context.None?
    ensures AnswersOk(v, i)
  {
  }

  lemma BeginKeepsAnswers(w: World, i: nat, collecting: bool, body: Body)
    requires AllAnswersOk(w) && i < |w.admissions|
    requires forall k :: 0 <= k < |w.attempts| ==> w.attempts[k].admission < |w.admissions|
    ensures AllAnswersOk(Begin(w, i, collecting, body))
  {
    var v := Begin(w, i, collecting, body);
    BeginAnswers(w, i, collecting, body);
    hide Begin, AnswersOk;
    forall j: nat | j < |v.admissions| ensures AnswersOk(v, j) {
      assert AnswersOk(w, j);
      if j == i { BeganAnswers(w, v, j); } else { AnswersKept(w, v, j); }
    }
  }

  lemma StepKeepsAnswers(w: World, e: Event)
    requires BegunOk(w) && AllAnswersOk(w) && Enabled(w, e)
    ensures AllAnswersOk(Step(w, e))
  {
    var v := Step(w, e);
    if Begins(w, e) {
      AdmitBegins(w, e);
      hide Step, Begin, AllAnswersOk;
      BeginKeepsAnswers(w, e.i, e.collecting, e.body);
    } else {
      OtherStepsAnswer(w, e);
      hide Step, AnswersOk, BegunOk;
      forall i: nat | i < |v.admissions| ensures AnswersOk(v, i) {
        if i < |w.admissions| {
          assert AnswersOk(w, i);
          AnswersKept(w, v, i);
        } else {
          NewAdmissionAnswers(w, v, i);
        }
      }
    }
  }

  lemma {:induction false} RunKeepsAnswers(w: World, events: seq<Event>)
    requires BegunOk(w) && AllAnswersOk(w) && CanRun(w, events)
    ensures AllAnswersOk(Run(w, events))
    decreases |events|
  {
    if events != [] {
      StepKeepsBegun(w, events[0]);
      StepKeepsAnswers(w, events[0]);
      RunKeepsAnswers(Step(w, events[0]), events[1..]);
    }
  }

  /** Once an admission's promise is stored and no body of it is starting, every later admit answers
      that promise, over every run. */
  lemma {:induction false} PromiseIsFinal(w: World, events: seq<Event>, i: nat)
    requires CanRun(w, events) && i < |w.admissions|
    requires w.admissions[i].promise.Some? && w.admissions[i].starting == []
    ensures var v := Run(w, events);
            i < |v.admissions| && v.admissions[i].promise == w.admissions[i].promise && v.admissions[i].starting == []
    decreases |events|
  {
    if events != [] {
      var v := Step(w, events[0]);
      if Begins(w, events[0]) {
        AdmitBegins(w, events[0]);
        BeginAnswers(w, events[0].i, events[0].collecting, events[0].body);
      } else {
        OtherStepsAnswer(w, events[0]);
      }
      PromiseIsFinal(v, events[1..], i);
    }
  }

  // ---------------------------------------------------------------------------
  // Closing
  // ---------------------------------------------------------------------------

  /** Authorities were claimed before now for the run they are kept under. */
  predicate Issued(w: World, a: Authority, run: RunId) {
    a.run == run && a.claim < w.nextClaim && a.generation <= w.generation
  }

  /** No authority claimed before becomes valid again. */
  ghost predicate Narrows(w: World, v: World) {
    && w.nextClaim <= v.nextClaim && w.generation <= v.generation
    && forall a: Authority :: a.claim < w.nextClaim && a.generation <= w.generation && Validates(v, a) ==> Validates(w, a)
  }

  ghost predicate AuthorityOk(w: World, c: Context) {
    && Issued(w, c.authority, c.run)
    && (c.foregroundClosed ==> !Validates(w, c.authority))
  }

  /** The admission's latest context, if any, shows an authority whenever another of its contexts does. */
  ghost predicate AttemptOk(w: World, t: Attempt) {
    && t.admission < |w.admissions|
    && (t.phase.Rejected? || t.context.Some?)
    && (t.context.Some? ==>
          var latest := w.admissions[t.admission].context;
          && t.context.value < |w.contexts| && w.contexts[t.context.value].run == w.admissions[t.admission].run
          && (t.phase.Rejected? ==> w.contexts[t.context.value].foregroundClosed)
          && latest.Some? && latest.value < |w.contexts|
          && (Validates(w, w.contexts[t.context.value].authority) ==>
                w.contexts[t.context.value].authority == w.contexts[latest.value].authority))
  }

  ghost predicate ClosedOk(w: World, a: Admission) {
    a.context.Some? ==> a.context.value < |w.contexts| && (a.closed ==> w.contexts[a.context.value].foregroundClosed)
  }

  ghost predicate RegistryOk(w: World) {
    forall run :: run in w.registry ==> Issued(w, w.registry[run], run)
  }

  ghost predicate Inv(w: World) {
    && RegistryOk(w)
    && (forall c :: 0 <= c < |w.contexts| ==> AuthorityOk(w, w.contexts[c]))
    && (forall k :: 0 <= k < |w.attempts| ==> AttemptOk(w, w.attempts[k]))
    && (forall i :: 0 <= i < |w.admissions| ==> ClosedOk(w, w.admissions[i]))
  }

  /** Fewer registry entries, the same otherwise. */
  lemma LosingNarrows(w: World, v: World)
    requires v.nextClaim == w.nextClaim && v.generation == w.generation
    requires forall run :: run in v.registry ==> run in w.registry && v.registry[run] == w.registry[run]
    ensures Narrows(w, v)
    ensures RegistryOk(w) ==> RegistryOk(v)
  {
  }

  lemma CloseContextKeepsInv(w: World, c: nat)
    requires Inv(w) && c < |w.contexts|
    ensures Inv(CloseContext(w, c)) && CloseContext(w, c).contexts[c].foregroundClosed
  {
    var v := CloseContext(w, c);
    LosingNarrows(w, v);
    hide RegistryOk;
    forall d | 0 <= d < |v.contexts| ensures AuthorityOk(v, v.contexts[d]) {
      assert AuthorityOk(w, w.contexts[d]);
    }
    hide AuthorityOk;
    forall k | 0 <= k < |v.attempts| ensures AttemptOk(v, v.attempts[k]) {
      assert AttemptOk(w, w.attempts[k]);
    }
    forall i | 0 <= i < |v.admissions| ensures ClosedOk(v, v.admissions[i]) {
      assert ClosedOk(w, w.admissions[i]);
    }
  }

  lemma SettleKeepsInv(w: World, k: nat, phase: Phase)
    requires Inv(w) && IsCalling(w, k)
    requires phase.Rejected? ==> w.contexts[w.attempts[k].context.value].foregroundClosed
    ensures Inv(SettleAttempt(w, k, phase))
  {
    var v := SettleAttempt(w, k, phase);
    forall m | 0 <= m < |v.attempts| ensures AttemptOk(v, v.attempts[m]) {
      assert AttemptOk(w, w.attempts[m]);
    }
    forall d | 0 <= d < |v.contexts| ensures AuthorityOk(v, v.contexts[d]) {
      assert AuthorityOk(w, w.contexts[d]);
    }
  }

  lemma RejectKeepsInv(w: World, k: nat)
    requires Inv(w) && IsCalling(w, k)
    ensures Inv(Threw(w, k))
  {
    var c := w.attempts[k].context.value;
    CloseContextKeepsInv(w, c);
    SettleKeepsInv(CloseContext(w, c), k, Rejected);
  }

  lemma CloseKeepsInv(w: World, i: nat)
    requires Inv(w) && i < |w.admissions|
    ensures Inv(CloseAdmission(w, i))
  {
    hide RegistryOk, AuthorityOk;
    var a := w.admissions[i];
    assert ClosedOk(w, a);
    var u := if a.context.Some? then CloseContext(w, a.context.value) else w;
    if a.context.Some? {
      CloseContextKeepsInv(w, a.context.value);
    }
    MarkClosedKeepsInv(u, i);
    assert CloseAdmission(w, i) == u.(admissions := u.admissions[i := u.admissions[i].(closed := true)]) by {
      hide Inv;
    }
  }

  /** Marking an admission closed whose latest context is closed. */
  lemma MarkClosedKeepsInv(u: World, i: nat)
    requires Inv(u) && i < |u.admissions|
    requires u.admissions[i].context.Some? && u.admissions[i].context.value < |u.contexts| ==>
               u.contexts[u.admissions[i].context.value].foregroundClosed
    ensures Inv(u.(admissions := u.admissions[i := u.admissions[i].(closed := true)]))
  {
    var v := u.(admissions := u.admissions[i := u.admissions[i].(closed := true)]);
    forall k | 0 <= k < |v.attempts| ensures AttemptOk(v, v.attempts[k]) {
      assert AttemptOk(u, u.attempts[k]);
    }
    forall d | 0 <= d < |v.contexts| ensures AuthorityOk(v, v.contexts[d]) {
      assert AuthorityOk(u, u.contexts[d]);
    }
    forall j | 0 <= j < |v.admissions| ensures ClosedOk(v, v.admissions[j]) {
      assert ClosedOk(u, u.admissions[j]);
    }
  }

  /** Steps that touch neither attempts nor contexts, and admissions only by adding one or storing a promise. */
  lemma ElsewhereKeepsInv(w: World, v: World)
    requires Inv(w) && RegistryOk(v) && Narrows(w, v)
    requires v.attempts == w.attempts && v.contexts == w.contexts && |v.admissions| >= |w.admissions|
    requires forall i :: 0 <= i < |w.admissions| ==>
               && v.admissions[i].context == w.admissions[i].context && v.admissions[i].closed == w.admissions[i].closed
               && v.admissions[i].run == w.admissions[i].run
    requires forall i :: |w.admissions| <= i < |v.admissions| ==> v.admissions[i].context.None?
    ensures Inv(v)
  {
    hide Validates, RegistryOk;
    forall d | 0 <= d < |v.contexts| ensures AuthorityOk(v, v.contexts[d]) {
      assert AuthorityOk(w, w.contexts[d]);
    }
    forall k | 0 <= k < |v.attempts| ensures AttemptOk(v, v.attempts[k]) {
      assert AttemptOk(w, w.attempts[k]);
      assert w.attempts[k].context.Some? ==> AuthorityOk(w, w.contexts[w.attempts[k].context.value]);
    }
    forall i | 0 <= i < |v.admissions| ensures ClosedOk(v, v.admissions[i]) {
      assert i < |w.admissions| ==> ClosedOk(w, w.admissions[i]);
    }
  }

  lemma FailKeepsInv(w: World, i: nat)
    requires Inv(w) && i < |w.admissions|
    ensures Inv(FailAttempt(w, i))
  {
    var v := FailAttempt(w, i);
    forall d | 0 <= d < |v.contexts| ensures AuthorityOk(v, v.contexts[d]) {
      assert AuthorityOk(w, w.contexts[d]);
    }
    forall k | 0 <= k < |v.attempts| ensures AttemptOk(v, v.attempts[k]) {
      assert k < |w.attempts| ==> AttemptOk(w, w.attempts[k]);
    }
    forall j | 0 <= j < |v.admissions| ensures ClosedOk(v, v.admissions[j]) {
      assert ClosedOk(w, w.admissions[j]);
    }
  }

  lemma ClaimNarrows(w: World, v: World, instance: nat, run: RunId, fault: ClaimFault)
    requires RegistryOk(w) && v.registry == RegistryAfterClaim(w, instance, run, fault)
    requires v.generation == w.generation
    requires v.nextClaim == if ClaimSucceeds(w, instance, run, fault) then w.nextClaim + 1 else w.nextClaim
    ensures Narrows(w, v) && RegistryOk(v)
    ensures ClaimSucceeds(w, instance, run, fault) ==> Issued(v, ClaimedAuthority(w, instance, run), run)
    ensures ClaimSucceeds(w, instance, run, fault) ==>
              forall a: Authority :: a.run == run && Validates(v, a) ==> a == ClaimedAuthority(w, instance, run)
  {
  }

  /** The new context takes over whatever authority an earlier one of its admission shows. */
  lemma EnterKeepsInv(w: World, i: nat, collecting: bool, fault: ClaimFault)
    requires Inv(w) && i < |w.admissions| && !w.admissions[i].closed
    requires ClaimSucceeds(w, w.admissions[i].instance, w.admissions[i].run, fault)
    ensures Inv(Begin(w, i, collecting, Claims(fault)))
  {
    var a, v := w.admissions[i], Begin(w, i, collecting, Claims(fault));
    ClaimNarrows(w, v, a.instance, a.run, fault);
    var c := v.contexts[|w.contexts|];
    assert c.authority == ClaimedAuthority(w, a.instance, a.run) && c.run == a.run && !c.foregroundClosed;
    hide Validates, RegistryOk, ClaimedAuthority, RegistryAfterClaim, ClaimSucceeds, NewContext, UseUp;
    forall d | 0 <= d < |v.contexts| ensures AuthorityOk(v, v.contexts[d]) {
      assert d < |w.contexts| ==> AuthorityOk(w, w.contexts[d]);
    }
    forall k | 0 <= k < |v.attempts| ensures AttemptOk(v, v.attempts[k]) {
      if k < |w.attempts| {
        assert AttemptOk(w, w.attempts[k]);
        assert w.attempts[k].context.Some? ==> AuthorityOk(w, w.contexts[w.attempts[k].context.value]);
      }
    }
    forall j | 0 <= j < |v.admissions| ensures ClosedOk(v, v.admissions[j]) {
      assert ClosedOk(w, w.admissions[j]);
    }
  }

  lemma BeginKeepsInv(w: World, i: nat, collecting: bool, body: Body)
    requires Inv(w) && i < |w.admissions| && !w.admissions[i].closed
    ensures Inv(Begin(w, i, collecting, body))
  {
    var a := w.admissions[i];
    if body.Claims? && ClaimSucceeds(w, a.instance, a.run, body.fault) {
      EnterKeepsInv(w, i, collecting, body.fault);
    } else {
      var u := w.(recoveries := if body.ThrowsAtFacts? then w.recoveries else UseUp(w, a),
                  holders := if body.Claims? then w.holders - {a.run} else w.holders,
                  registry := if body.Claims? then RegistryAfterClaim(w, a.instance, a.run, body.fault) else w.registry);
      LosingNarrows(w, u);
      hide Inv, Narrows, RegistryAfterClaim, ClaimSucceeds;
      assert Inv(u) by { ElsewhereKeepsInv(w, u); }
      FailKeepsInv(u, i);
    }
  }

  lemma StepKeepsInv(w: World, e: Event)
    requires Inv(w) && Enabled(w, e)
    ensures Inv(Step(w, e))
  {
    assert RegistryOk(w);
    hide Inv, Begin, CloseContext, RegistryOk;
    match e
    case DoAdmit(i, collecting, body) =>
      if !w.admissions[i].closed && w.admissions[i].promise.None? {
        BeginKeepsInv(w, i, collecting, body);
      }
    case DoReturned(k) =>
      var c := w.attempts[k].context.value;
      if w.admissions[w.attempts[k].admission].closed || !Visible(w, c) {
        RejectKeepsInv(w, k);
      } else {
        SettleKeepsInv(w, k, Fulfilled);
      }
    case DoThrew(k) => RejectKeepsInv(w, k);
    case DoClose(i) => CloseKeepsInv(w, i);
    case DoNewGeneration => NewGenerationKeepsInv(w);
    case DoPrepare(_, _, _) => LosingKeepsInv(w, Step(w, e));
    case DoRecovery(_, _, _) => LosingKeepsInv(w, Step(w, e));
    case DoSyncDone(_) => LosingKeepsInv(w, Step(w, e));
    case DoRetain(_) => LosingKeepsInv(w, Step(w, e));
    case DoRelease(_) => LosingKeepsInv(w, Step(w, e));
    case DoClear(_) => LosingKeepsInv(w, Step(w, e));
  }

  lemma LosingKeepsInv(w: World, v: World)
    requires Inv(w) && v.nextClaim == w.nextClaim && v.generation == w.generation
    requires forall run :: run in v.registry ==> run in w.registry && v.registry[run] == w.registry[run]
    requires v.attempts == w.attempts && v.contexts == w.contexts && |v.admissions| >= |w.admissions|
    requires forall i :: 0 <= i < |w.admissions| ==>
               && v.admissions[i].context == w.admissions[i].context && v.admissions[i].closed == w.admissions[i].closed
               && v.admissions[i].run == w.admissions[i].run
    requires forall i :: |w.admissions| <= i < |v.admissions| ==> v.admissions[i].context.None?
    ensures Inv(v)
  {
    LosingNarrows(w, v);
    ElsewhereKeepsInv(w, v);
  }

  lemma NewGenerationKeepsInv(w: World)
    requires Inv(w)
    ensures Inv(w.(generation := w.generation + 1))
  {
    ElsewhereKeepsInv(w, w.(generation := w.generation + 1));
  }

  lemma {:induction false} RunKeepsInv(w: World, events: seq<Event>)
    requires Inv(w) && CanRun(w, events)
    ensures Inv(Run(w, events))
    decreases |events|
  {
    if events != [] {
      StepKeepsInv(w, events[0]);
      RunKeepsInv(Step(w, events[0]), events[1..]);
    }
  }

  /** Over every run, re-entrant or not, no context of a closed admission shows its authority. */
  lemma ClosedShowsNothing(events: seq<Event>, k: nat)
    requires CanRun(EMPTY, events)
    requires var w := Run(EMPTY, events);
             k < |w.attempts| && w.attempts[k].context.Some?
             && (w.attempts[k].admission < |w.admissions| ==> w.admissions[w.attempts[k].admission].closed)
    ensures var w := Run(EMPTY, events);
            w.attempts[k].context.value < |w.contexts| && !Visible(w, w.attempts[k].context.value)
  {
    RunKeepsInv(EMPTY, events);
    var w := Run(EMPTY, events);
    hide Validates;
    assert AttemptOk(w, w.attempts[k]);
    var a := w.admissions[w.attempts[k].admission];
    assert ClosedOk(w, a) && AuthorityOk(w, w.contexts[a.context.value]);
  }

  /** A settled attempt stays settled; of a closed admission a pending one never succeeds and no new one begins. */
  ghost predicate ClosedFinal(w: World, v: World, i: nat) {
    && i < |w.admissions| <= |v.admissions| && v.admissions[i].closed
    && |w.attempts| <= |v.attempts|
    && (forall k :: 0 <= k < |w.attempts| ==> v.attempts[k].admission == w.attempts[k].admission)
    && (forall k :: 0 <= k < |w.attempts| && w.attempts[k].admission == i ==>
          && v.attempts[k].context == w.attempts[k].context
          && (v.attempts[k].phase == w.attempts[k].phase || (w.attempts[k].phase.Calling? && v.attempts[k].phase.Rejected?)))
    && (forall k :: |w.attempts| <= k < |v.attempts| ==> v.attempts[k].admission != i)
  }

  lemma StepClosedFinal(w: World, e: Event, i: nat)
    requires Enabled(w, e) && i < |w.admissions| && w.admissions[i].closed
    ensures ClosedFinal(w, Step(w, e), i)
  {
    if e.DoReturned? || e.DoThrew? {
      hide CloseContext, Visible;
      CloseContextKept(w, w.attempts[e.k].context.value);
      SettleClosedFinal(w, Step(w, e), e.k, i);
    } else if e.DoClose? {
      hide Begin, CloseContext;
      var a := w.admissions[e.i];
      if a.context.Some? && a.context.value < |w.contexts| {
        CloseContextKept(w.(admissions := w.admissions[e.i := a.(closed := true)]), a.context.value);
      }
    } else if Begins(w, e) {
      hide Step, Begin;
      AdmitBegins(w, e);
      BeginAttempts(w, e.i, e.collecting, e.body);
      var v := Step(w, e);
      assert forall k :: 0 <= k < |w.attempts| ==> v.attempts[k] == v.attempts[..|w.attempts|][k];
    } else {
      hide Step;
      QuietStep(w, e);
    }
  }

  lemma QuietStep(w: World, e: Event)
    requires Enabled(w, e) && !Begins(w, e) && !e.DoReturned? && !e.DoThrew? && !e.DoClose?
    ensures Step(w, e).attempts == w.attempts && |Step(w, e).admissions| >= |w.admissions|
    ensures forall i :: 0 <= i < |w.admissions| ==> Step(w, e).admissions[i].closed == w.admissions[i].closed
  {
    hide Begin, CloseContext, Validates;
  }

  lemma SettleClosedFinal(w: World, v: World, k: nat, i: nat)
    requires i < |w.admissions| && w.admissions[i].closed && v.admissions == w.admissions
    requires k < |w.attempts| && w.attempts[k].phase.Calling? && |v.attempts| == |w.attempts|
    requires forall m :: 0 <= m < |w.attempts| ==> v.attempts[m] == if m == k then w.attempts[k].(phase := v.attempts[k].phase) else w.attempts[m]
    requires w.attempts[k].admission == i ==> v.attempts[k].phase.Rejected?
    ensures ClosedFinal(w, v, i)
  {
  }

  /** Once an admission is closed, in every later run no pending attempt of it succeeds and no new
      one begins. */
  lemma {:induction false} PendingNeverSucceedsAfterClose(w: World, events: seq<Event>, i: nat)
    requires CanRun(w, events) && i < |w.admissions| && w.admissions[i].closed
    ensures ClosedFinal(w, Run(w, events), i)
    decreases |events|
  {
    if events != [] {
      StepClosedFinal(w, events[0], i);
      PendingNeverSucceedsAfterClose(Step(w, events[0]), events[1..], i);
    }
  }

  /** The attempt is rejected and its context shows no authority. */
  predicate RejectedUnseen(w: World, k: nat) {
    && k < |w.attempts| && w.attempts[k].phase.Rejected?
    && w.attempts[k].context.Some? && w.attempts[k].context.value < |w.contexts|
    && !Visible(w, w.attempts[k].context.value)
  }

  /** An attempt pending when its admission is closed stays pending or rejected over every later run,
      and whenever its callback returns or throws it is rejected without a visible authority. */
  lemma PendingRejectsAfterClose(w: World, events: seq<Event>, k: nat)
    requires CanRun(w, events) && IsCalling(w, k) && w.admissions[w.attempts[k].admission].closed
    ensures var v := Run(w, events);
            && k < |v.attempts| && (v.attempts[k].phase.Calling? || v.attempts[k].phase.Rejected?)
            && (IsCalling(v, k) ==> RejectedUnseen(Returned(v, k), k) && RejectedUnseen(Threw(v, k), k))
  {
    PendingNeverSucceedsAfterClose(w, events, w.attempts[k].admission);
    hide Validates;
  }

  // ---------------------------------------------------------------------------
  // Recovery evidence is redeemed once
  // ---------------------------------------------------------------------------

  /** The context carries exactly the evidence of the recovery it redeemed, which is used up and was bound
      to its run, by the resolver or else by the token itself. A token of its own is for its own run. */
  ghost predicate CarriesEvidence(w: World, c: Context) {
    && (c.redeemed.Some? ==>
          && c.redeemed.value < |w.recoveries| && w.recoveries[c.redeemed.value].consumed
          && c.token.Some? && c.token == w.recoveries[c.redeemed.value].token
          && c.run == (match w.recoveries[c.redeemed.value].expected case Some(run) => run case None => c.token.value.run))
    && (c.redeemed.None? && c.token.Some? ==> c.token.value.run == c.run)
  }

  ghost predicate SameEvidence(c: Context, d: Context) {
    c.redeemed.Some? && c.redeemed == d.redeemed
  }

  ghost predicate RedeemedOk(w: World) {
    && (forall c: nat :: c < |w.contexts| ==> CarriesEvidence(w, w.contexts[c]))
    && (forall c: nat, d: nat :: c < d < |w.contexts| ==> !SameEvidence(w.contexts[c], w.contexts[d]))
  }

  /** Contexts change only by being closed, and recoveries only by being used up. */
  ghost predicate Kept(w: World, v: World) {
    && |w.contexts| <= |v.contexts| && |w.recoveries| <= |v.recoveries|
    && (forall c :: 0 <= c < |w.contexts| ==>
          v.contexts[c] == w.contexts[c].(foregroundClosed := v.contexts[c].foregroundClosed))
    && (forall r :: 0 <= r < |w.recoveries| ==>
          && v.recoveries[r].token == w.recoveries[r].token && v.recoveries[r].expected == w.recoveries[r].expected
          && (w.recoveries[r].consumed ==> v.recoveries[r].consumed))
  }

  lemma CloseContextKept(w: World, c: nat)
    requires c < |w.contexts|
    ensures var v := CloseContext(w, c);
            && Kept(w, v) && |v.contexts| == |w.contexts| && v.generation == w.generation
            && v.handles == w.handles && v.holders == w.holders
            && v.attempts == w.attempts && v.admissions == w.admissions
  {
  }

  lemma BeginKept(w: World, i: nat, collecting: bool, body: Body)
    requires i < |w.admissions|
    ensures Kept(w, Begin(w, i, collecting, body))
  {
    hide NewContext, RegistryAfterClaim;
  }

  lemma StepKeepsContexts(w: World, e: Event)
    requires Enabled(w, e)
    ensures Kept(w, Step(w, e))
    ensures !BeginsContext(w, e) ==> |Step(w, e).contexts| == |w.contexts|
  {
    hide NewContext, UseUp, CloseContext, Validates, RegistryAfterClaim;
    match e
    case DoAdmit(i, collecting, body) => BeginKept(w, i, collecting, body);
    case DoReturned(k) => CloseContextKept(w, w.attempts[k].context.value);
    case DoThrew(k) => CloseContextKept(w, w.attempts[k].context.value);
    case DoClose(i) =>
      var a := w.admissions[i];
      if a.context.Some? && a.context.value < |w.contexts| {
        CloseContextKept(w.(admissions := w.admissions[i := a.(closed := true)]), a.context.value);
      }
    case _ =>
  }

  /** Only these steps touch the recovery handles or the lifecycle. */
  lemma HandlesUntouched(w: World, e: Event)
    requires Enabled(w, e) && !Begins(w, e) && !e.DoRetain? && !e.DoRelease? && !e.DoNewGeneration?
    ensures var v := Step(w, e); v.handles == w.handles && v.holders == w.holders && v.generation == w.generation
  {
    hide Begin, CloseContext, Visible;
    match e
    case DoReturned(k) => CloseContextKept(w, w.attempts[k].context.value);
    case DoThrew(k) => CloseContextKept(w, w.attempts[k].context.value);
    case DoClose(i) =>
      var a := w.admissions[i];
      if a.context.Some? && a.context.value < |w.contexts| {
        CloseContextKept(w.(admissions := w.admissions[i := a.(closed := true)]), a.context.value);
      }
    case _ =>
  }

  lemma KeptRedeemed(w: World, v: World)
    requires RedeemedOk(w) && Kept(w, v) && |v.contexts| == |w.contexts|
    ensures RedeemedOk(v)
  {
    forall c: nat | c < |v.contexts| ensures CarriesEvidence(v, v.contexts[c]) {
      assert CarriesEvidence(w, w.contexts[c]);
    }
    forall c: nat, d: nat | c < d < |v.contexts| ensures !SameEvidence(v.contexts[c], v.contexts[d]) {
      assert !SameEvidence(w.contexts[c], w.contexts[d]);
    }
  }

  /** A new context redeems only evidence that no earlier one has. */
  lemma BeginKeepsRedeemed(w: World, i: nat, collecting: bool, fault: ClaimFault)
    requires RedeemedOk(w) && i < |w.admissions| && ClaimSucceeds(w, w.admissions[i].instance, w.admissions[i].run, fault)
    requires Kept(w, Begin(w, i, collecting, Claims(fault)))
    ensures RedeemedOk(Begin(w, i, collecting, Claims(fault)))
  {
    hide ClaimedAuthority, RegistryAfterClaim, ClaimSucceeds;
    var v := Begin(w, i, collecting, Claims(fault));
    forall c: nat | c < |v.contexts| ensures CarriesEvidence(v, v.contexts[c]) {
      if c < |w.contexts| {
        assert CarriesEvidence(w, w.contexts[c]);
      }
    }
    forall c: nat, d: nat | c < d < |v.contexts| ensures !SameEvidence(v.contexts[c], v.contexts[d]) {
      if d < |w.contexts| {
        assert !SameEvidence(w.contexts[c], w.contexts[d]);
      } else {
        assert CarriesEvidence(w, w.contexts[c]);
      }
    }
  }

  lemma StepKeepsRedeemed(w: World, e: Event)
    requires RedeemedOk(w) && Enabled(w, e)
    ensures RedeemedOk(Step(w, e))
  {
    hide RedeemedOk, Kept, Begin;
    StepKeepsContexts(w, e);
    if BeginsContext(w, e) {
      BeginKeepsRedeemed(w, e.i, e.collecting, e.body.fault);
    } else {
      KeptRedeemed(w, Step(w, e));
    }
  }

  /** Over every run, re-entrant or not, at most one context carries the token of a recovery. */
  lemma {:induction false} EvidenceRedeemedOnce(w: World, events: seq<Event>)
    requires RedeemedOk(w) && CanRun(w, events)
    ensures RedeemedOk(Run(w, events))
    decreases |events|
  {
    if events != [] {
      StepKeepsRedeemed(w, events[0]);
      EvidenceRedeemedOnce(Step(w, events[0]), events[1..]);
    }
  }

  // ---------------------------------------------------------------------------
  // Recovery handles
  // ---------------------------------------------------------------------------

  ghost predicate HandlesOk(w: World) {
    && (forall h :: 0 <= h < |w.handles| ==>
          w.handles[h].context < |w.contexts| && w.contexts[w.handles[h].context].run == w.handles[h].run)
    && (forall run :: run in w.holders ==> w.holders[run] < |w.handles| && w.handles[w.holders[run]].run == run)
  }

  /** Holders only removed. */
  lemma FewerHolders(w: World, v: World)
    requires HandlesOk(w) && Kept(w, v) && v.handles == w.handles
    requires forall run :: run in v.holders ==> run in w.holders && v.holders[run] == w.holders[run]
    ensures HandlesOk(v)
  {
  }

  lemma RetainKeepsHandles(w: World, c: nat)
    requires HandlesOk(w) && c < |w.contexts|
    ensures HandlesOk(Retain(w, c))
  {
    hide Visible;
  }

  /** No other step adds a holder. */
  lemma HoldersOnlyRemoved(w: World, e: Event)
    requires Enabled(w, e) && !e.DoRetain?
    ensures var v := Step(w, e);
            v.handles == w.handles && forall run :: run in v.holders ==> run in w.holders && v.holders[run] == w.holders[run]
  {
    if Begins(w, e) {
      hide Step;
      AdmitBegins(w, e);
      BeginHolders(w, e.i, e.collecting, e.body);
    } else if !e.DoRelease? && !e.DoNewGeneration? {
      hide Step;
      HandlesUntouched(w, e);
    } else {
      hide Begin, CloseContext;
    }
  }

  lemma BeginHolders(w: World, i: nat, collecting: bool, body: Body)
    requires i < |w.admissions|
    ensures var v := Begin(w, i, collecting, body);
            v.handles == w.handles && forall run :: run in v.holders ==> run in w.holders && v.holders[run] == w.holders[run]
  {
    hide NewContext, UseUp, RegistryAfterClaim, ClaimSucceeds;
  }

  lemma StepKeepsHandles(w: World, e: Event)
    requires HandlesOk(w) && Enabled(w, e)
    ensures HandlesOk(Step(w, e))
  {
    if e.DoRetain? {
      RetainKeepsHandles(w, e.c);
    } else {
      hide Step, HandlesOk, Kept;
      StepKeepsContexts(w, e);
      HoldersOnlyRemoved(w, e);
      FewerHolders(w, Step(w, e));
    }
  }

  lemma {:induction false} RunKeepsHandles(w: World, events: seq<Event>)
    requires HandlesOk(w) && CanRun(w, events)
    ensures HandlesOk(Run(w, events))
    decreases |events|
  {
    if events != [] {
      StepKeepsHandles(w, events[0]);
      RunKeepsHandles(Step(w, events[0]), events[1..]);
    }
  }

  /** Releasing a handle other than the current holder removes the holder exactly when both were
      retained from the same context; a holder of another context is never removed. */
  lemma StaleHandleRemovesOnlyItsOwnContext(events: seq<Event>, h: nat, run: RunId)
    requires CanRun(EMPTY, events)
    requires var w := Run(EMPTY, events); h < |w.handles| && run in w.holders && w.holders[run] != h
    ensures var w := Run(EMPTY, events);
            w.holders[run] < |w.handles| &&
            (run !in ReleaseHandle(w, h).holders <==> w.handles[w.holders[run]].context == w.handles[h].context)
  {
    RunKeepsHandles(EMPTY, events);
  }

  lemma RunTwo(w: World, a: Event, rest: seq<Event>)
    ensures CanRun(w, [a] + rest) <==> Enabled(w, a) && CanRun(Step(w, a), rest)
    ensures CanRun(w, [a] + rest) ==> Run(w, [a] + rest) == Run(Step(w, a), rest)
  {
    assert ([a] + rest)[1..] == rest;
  }

  lemma RunNone(w: World)
    ensures CanRun(w, []) && Run(w, []) == w
  {
  }

  /** A context that retains, releases and retains again can lose the second hold to its first handle. */
  lemma StaleHandleOfSameContext() returns (events: seq<Event>)
    ensures CanRun(EMPTY, events)
    ensures var w := Run(EMPTY, events);
            |w.handles| == 2 && "r" in w.holders && w.holders["r"] == 1 && "r" !in ReleaseHandle(w, 0).holders
  {
    hide CanRun, Run;
    var e0, e1, e2, e3, e4 := DoPrepare(0, "r", None), DoAdmit(0, false, Claims(NoFault)), DoRetain(0), DoRelease(0), DoRetain(0);
    var w1 := Step(EMPTY, e0);
    var w2 := Step(w1, e1);
    assert Visible(w2, 0);
    var w3 := Step(w2, e2);
    var w4 := Step(w3, e3);
    var w5 := Step(w4, e4);
    assert w5.holders == map["r" := 1];
    events := [e0] + ([e1] + ([e2] + ([e3] + ([e4] + []))));
    RunNone(w5);
    RunTwo(w4, e4, []);
    RunTwo(w3, e3, [e4] + []);
    RunTwo(w2, e2, [e3] + ([e4] + []));
    RunTwo(w1, e1, [e2] + ([e3] + ([e4] + [])));
    RunTwo(EMPTY, e0, [e1] + ([e2] + ([e3] + ([e4] + []))));
  }

  /** The retained recovery may still act. */
  predicate RecoveryActive(w: World, h: nat) {
    && h < |w.handles| && w.handles[h].context < |w.contexts|
    && w.contexts[w.handles[h].context].authority.generation == w.generation
    && Holding(w, h)
  }

  /** A new body claims the run's authority, successfully or not. */
  predicate ClaimsRun(w: World, e: Event, run: RunId) {
    Begins(w, e) && w.admissions[e.i].run == run && e.body.Claims?
  }

  /** An active recovery ends by its own context's release, by a new claim for the run or by a
      new lifecycle, and by nothing else: closing its admission leaves it active. */
  lemma RecoveryEndsExactly(w: World, e: Event, h: nat)
    requires HandlesOk(w) && Enabled(w, e) && RecoveryActive(w, h)
    ensures !RecoveryActive(Step(w, e), h) <==>
            || (e.DoRelease? && w.handles[e.h].context == w.handles[h].context)
            || ClaimsRun(w, e, w.handles[h].run)
            || e.DoNewGeneration?
  {
    hide NewContext, UseUp, CloseContext, Validates;
    StepKeepsContexts(w, e);
    if !Begins(w, e) && !e.DoRetain? && !e.DoRelease? && !e.DoNewGeneration? {
      hide Step, RecoveryActive, Kept, HandlesOk;
      HandlesUntouched(w, e);
      RecoveryUntouched(w, Step(w, e), h);
    } else if e.DoAdmit? {
      hide RecoveryActive, Begin, Kept, HandlesOk;
      RecoveryAtBegin(w, e.i, e.collecting, e.body, h);
    } else {
      hide Step, RecoveryActive, Kept, HandlesOk;
      RecoveryAtHandles(w, e, h);
    }
  }

  lemma RecoveryAtHandles(w: World, e: Event, h: nat)
    requires HandlesOk(w) && RecoveryActive(w, h) && Enabled(w, e)
    requires e.DoRetain? || e.DoRelease? || e.DoNewGeneration?
    ensures RecoveryActive(Step(w, e), h) <==>
            !e.DoNewGeneration? && !(e.DoRelease? && w.handles[e.h].context == w.handles[h].context)
  {
    hide Begin, CloseContext, Visible;
  }

  lemma RecoveryAtBegin(w: World, i: nat, collecting: bool, body: Body, h: nat)
    requires HandlesOk(w) && RecoveryActive(w, h) && i < |w.admissions|
    ensures RecoveryActive(Begin(w, i, collecting, body), h) <==> w.admissions[i].run != w.handles[h].run || !body.Claims?
  {
    hide NewContext, UseUp, RegistryAfterClaim, ClaimSucceeds, Kept;
    var v := Begin(w, i, collecting, body);
    assert v.contexts[w.handles[h].context] == w.contexts[w.handles[h].context];
  }

  lemma RecoveryUntouched(w: World, v: World, h: nat)
    requires RecoveryActive(w, h) && Kept(w, v)
    requires v.handles == w.handles && v.holders == w.holders && v.generation == w.generation
    ensures RecoveryActive(v, h)
  {
  }

  // ---------------------------------------------------------------------------
  // Re-entry
  // ---------------------------------------------------------------------------

  /** The state after a callback has admitted its own admission again: two bodies are starting. */
  function Reentered(): World {
    var a := Authority(0, "r", 0, 0);
    var c := Context(0, "r", None, None, a, false);
    World(0, map["r" := a], 2, 2, [Admission(0, "r", None, false, [0, 1], None, Some(1))],
          [Attempt(0, Some(0), Calling), Attempt(0, Some(1), Calling)], [c, c], [], map[], [])
  }

  lemma ReentersFromEmpty()
    ensures var admit := DoAdmit(0, false, Claims(NoFault));
            && CanRun(EMPTY, [DoPrepare(0, "r", None)] + ([admit] + ([admit] + [])))
            && Run(EMPTY, [DoPrepare(0, "r", None)] + ([admit] + ([admit] + []))) == Reentered()
  {
    hide CanRun, Run, CloseContext;
    var prepare, admit := DoPrepare(0, "r", None), DoAdmit(0, false, Claims(NoFault));
    var w1 := Step(EMPTY, prepare);
    var w2 := Step(w1, admit);
    var w3 := Step(w2, admit);
    var r := Reentered();
    assert w3.registry == r.registry && w3.holders == r.holders;
    assert w2.admissions[0].starting == [0] && w3.admissions[0].starting == [0, 1];
    assert w3.admissions == r.admissions;
    assert w3.attempts == r.attempts && w3.contexts == r.contexts;
    assert w3 == r;
    RunNone(w3);
    RunTwo(w2, admit, []);
    RunTwo(w1, admit, [admit] + []);
    RunTwo(EMPTY, prepare, [admit] + ([admit] + []));
  }

  lemma BothSucceed()
    ensures var done, tail := DoSyncDone(0), [DoReturned(0)] + ([DoReturned(1)] + []);
            && CanRun(Reentered(), [done] + ([done] + tail))
            && var w := Run(Reentered(), [done] + ([done] + tail));
               && |w.attempts| == 2 && w.attempts[0].phase.Fulfilled? && w.attempts[1].phase.Fulfilled?
               && w.attempts[0].admission == w.attempts[1].admission && w.attempts[0].context != w.attempts[1].context
  {
    hide CanRun, Run, CloseContext;
    var done, last := DoSyncDone(0), [DoReturned(1)] + [];
    var w4 := Step(Reentered(), done);
    assert w4.admissions[0].starting == [0];
    var w5 := Step(w4, done);
    assert w5.admissions[0].starting == [] && Visible(w5, 0) && Visible(w5, 1);
    var w6 := Step(w5, DoReturned(0));
    assert w6.attempts[1] == w5.attempts[1] && Visible(w6, 1);
    var w7 := Step(w6, DoReturned(1));
    RunNone(w7);
    RunTwo(w6, DoReturned(1), []);
    RunTwo(w5, DoReturned(0), last);
    RunTwo(w4, done, [DoReturned(0)] + last);
    RunTwo(Reentered(), done, [done] + ([DoReturned(0)] + last));
  }

  lemma {:induction false} RunConcat(w: World, a: seq<Event>, b: seq<Event>)
    requires CanRun(w, a) && CanRun(Run(w, a), b)
    ensures CanRun(w, a + b) && Run(w, a + b) == Run(Run(w, a), b)
    decreases |a|
  {
    if a == [] {
      assert a + b == b;
    } else {
      hide Step;
      var first, rest := a[0], a[1..];
      RunConcat(Step(w, first), rest, b);
      RunTwo(w, first, rest + b);
      assert [first] + (rest + b) == a + b;
    }
  }

  /** A callback that admits its own admission again gets a second context, and both succeed. */
  lemma ReentryMakesTwoContexts() returns (events: seq<Event>)
    ensures CanRun(EMPTY, events)
    ensures var w := Run(EMPTY, events);
            && |w.attempts| == 2 && w.attempts[0].admission == w.attempts[1].admission
            && w.attempts[0].phase.Fulfilled? && w.attempts[1].phase.Fulfilled?
            && w.attempts[0].context != w.attempts[1].context
  {
    hide CanRun, Run, Reentered;
    var admit, done := DoAdmit(0, false, Claims(NoFault)), DoSyncDone(0);
    var before := [DoPrepare(0, "r", None)] + ([admit] + ([admit] + []));
    var after := [done] + ([done] + ([DoReturned(0)] + ([DoReturned(1)] + [])));
    ReentersFromEmpty();
    BothSucceed();
    RunConcat(EMPTY, before, after);
    events := before + after;
  }

  // ---------------------------------------------------------------------------
  // The process-wide tables
  // ---------------------------------------------------------------------------

  class AdmissionTables {
    var generation: nat
    var registry: map<RunId, Authority>
    var nextClaim: nat
    var nextToken: nat
    var admissions: seq<Admission>
    var attempts: seq<Attempt>
    var contexts: seq<Context>
    var handles: seq<Handle>
    var holders: map<RunId, nat>
    var recoveries: seq<Recovery>

    ghost function View(): World
      reads this
    {
      World(generation, registry, nextClaim, nextToken, admissions, attempts, contexts, handles, holders, recoveries)
    }

    constructor ()
      ensures View() == EMPTY && Inv(View())
    {
      generation, registry, nextClaim, nextToken := 0, map[], 0, 0;
      admissions, attempts, contexts, handles, holders, recoveries := [], [], [], [], map[], [];
    }

    method Validate(a: Authority) returns (valid: bool)
      ensures valid == Validates(View(), a)
    {
      valid := a.run in registry && a.generation == generation && registry[a.run] == a;
    }

    /** Reuses the run's live authority of the same instance, else retires it and makes a new one. */
    method ClaimDelegatedAuthority(instance: nat, run: RunId, fault: ClaimFault) returns (a: Option<Authority>)
      modifies this`registry, this`nextClaim
      ensures a == if ClaimSucceeds(old(View()), instance, run, fault) then Some(ClaimedAuthority(old(View()), instance, run)) else None
      ensures registry == RegistryAfterClaim(old(View()), instance, run, fault)
      ensures nextClaim == old(nextClaim) + (if a.Some? then 1 else 0)
      ensures var live := run in old(registry) && old(registry)[run].instance == instance && old(registry)[run].generation == generation;
              if fault == BlankInstance then a == None && registry == old(registry)
              else if live then a == Some(old(registry)[run]) && registry == old(registry)
              else if fault == ContextRefused then a == None && registry == old(registry) - {run}
              else a == Some(Authority(instance, run, generation, old(nextClaim))) && registry == old(registry)[run := a.value]
    {
      if fault.BlankInstance? {
        return None;
      }
      if run in registry && registry[run].instance == instance && registry[run].generation == generation {
        nextClaim := nextClaim + 1;
        a := Some(registry[run]);
        assert registry[run := registry[run]] == registry;
        return;
      }
      registry := registry - {run};
      if fault.ContextRefused? {
        return None;
      }
      var made := Authority(instance, run, generation, nextClaim);
      assert registry[run := made] == old(registry)[run := made];
      registry, nextClaim := registry[run := made], nextClaim + 1;
      return Some(made);
    }

    method CloseAuthority(c: nat) returns (closed: bool)
      requires c < |contexts|
      modifies this`contexts, this`registry
      ensures View() == CloseContext(old(View()), c)
      ensures closed == !old(contexts)[c].foregroundClosed
      ensures contexts == old(contexts)[c := old(contexts)[c].(foregroundClosed := true)]
      ensures registry == if closed && InAuthority(old(contexts)[c].authority, old(registry), generation)
                          then old(registry) - {old(contexts)[c].authority.run} else old(registry)
    {
      if contexts[c].foregroundClosed {
        return false;
      }
      var a := contexts[c].authority;
      contexts := contexts[c := contexts[c].(foregroundClosed := true)];
      var valid := Validate(a);
      if valid {
        registry := registry - {a.run};
      }
      return true;
    }

    method PresentEvidence(a: Admission) returns (redemption: Redemption, retryOnly: bool)
      modifies this`recoveries
      ensures redemption == AdmissionRecovery(old(View()), a) && retryOnly == RetryOnly(old(View()), a)
      ensures recoveries == UseUp(old(View()), a)
    {
      if a.recovery.None? || a.recovery.value >= |recoveries| {
        return Redemption(false, None), false;
      }
      var r := recoveries[a.recovery.value];
      recoveries := recoveries[a.recovery.value := r.(consumed := true)];
      return Redeem(r, a.run), r.retryOnly;
    }

    /** The token of a new context, and the recovery it came from. */
    method ChooseToken(a: Admission, collecting: bool) returns (token: Option<Token>, redeemed: Option<nat>)
      modifies this`recoveries
      ensures token == ContextToken(old(View()), a, collecting)
      ensures redeemed == if collecting && AdmissionRecovery(old(View()), a).token.Some? then a.recovery else None
      ensures recoveries == UseUp(old(View()), a)
      ensures TokenFor(token, redeemed, a, collecting, nextToken, old(recoveries))
    {
      hide UseUp;
      var redemption, retryOnly := PresentEvidence(a);
      if !collecting {
        return None, None;
      }
      if redemption.token.Some? {
        return redemption.token, a.recovery;
      }
      if a.recovery.None? || (redemption.accepted && !retryOnly) {
        return Some(Token(nextToken, a.run)), None;
      }
      return None, None;
    }

    method StoreRejected(i: nat)
      requires i < |admissions|
      modifies this`attempts, this`admissions
      ensures View() == FailAttempt(old(View()), i)
    {
      admissions := admissions[i := admissions[i].(promise := Some(|attempts|))];
      attempts := attempts + [Attempt(i, None, Rejected)];
    }

    method StartCallback(i: nat, c: Context)
      requires i < |admissions|
      modifies this`contexts, this`attempts, this`admissions, this`nextToken
      ensures View() == EnterCallback(old(View()), i, c).(nextClaim := old(nextClaim))
    {
      var a := admissions[i];
      admissions := admissions[i := a.(starting := a.starting + [|attempts|], context := Some(|contexts|))];
      attempts := attempts + [Attempt(i, Some(|contexts|), Calling)];
      contexts := contexts + [c];
      nextToken := nextToken + 1;
    }

    /** The admission body up to the callback's first await, wherever it throws. */
    method BeginAdmission(i: nat, collecting: bool, body: Body)
      requires i < |admissions|
      modifies this
      ensures View() == Begin(old(View()), i, collecting, body)
    {
      hide UseUp, ContextToken, AdmissionRecovery;
      var a := admissions[i];
      if body.ThrowsAtFacts? {
        StoreRejected(i);
        return;
      }
      var token, redeemed := ChooseToken(a, collecting);
      if body.ThrowsAfterEvidence? {
        StoreRejected(i);
        return;
      }
      holders := holders - {a.run};
      var authority := ClaimDelegatedAuthority(a.instance, a.run, body.fault);
      if authority.None? {
        StoreRejected(i);
        return;
      }
      StartCallback(i, Context(a.instance, a.run, token, redeemed, authority.value, false));
    }

    /** Answers with the stored promise, or starts the body; a closed admission answers nothing. */
    method AdmitRun(i: nat, collecting: bool, body: Body) returns (promise: Option<nat>)
      requires i < |admissions|
      modifies this
      ensures View() == Admit(old(View()), i, collecting, body)
      ensures promise == if old(admissions)[i].closed then None else old(admissions)[i].promise
      ensures if old(admissions)[i].closed || promise.Some? then View() == old(View())
              else |attempts| == |old(attempts)| + 1 && attempts[|old(attempts)|].admission == i
    {
      if admissions[i].closed {
        return None;
      }
      if admissions[i].promise.Some? {
        return admissions[i].promise;
      }
      BeginAdmission(i, collecting, body);
      return None;
    }

    /** The innermost body's promise is stored. */
    method StorePromise(i: nat)
      requires i < |admissions| && admissions[i].starting != []
      modifies this`admissions
      ensures View() == SyncDone(old(View()), i)
    {
      var a := admissions[i];
      var n := |a.starting| - 1;
      admissions := admissions[i := a.(starting := a.starting[..n], promise := Some(a.starting[n]))];
    }

    method CallbackThrew(k: nat)
      requires IsCalling(View(), k)
      modifies this
      ensures View() == Threw(old(View()), k)
      ensures attempts == old(attempts)[k := old(attempts)[k].(phase := Rejected)]
      ensures attempts[k].context.value < |contexts| && contexts[attempts[k].context.value].foregroundClosed
    {
      var _ := CloseAuthority(attempts[k].context.value);
      attempts := attempts[k := attempts[k].(phase := Rejected)];
    }

    method CallbackReturned(k: nat) returns (context: Option<nat>)
      requires IsCalling(View(), k)
      modifies this
      ensures View() == Returned(old(View()), k)
      ensures context == if attempts[k].phase.Fulfilled? then attempts[k].context else None
      ensures var c := old(attempts)[k].context.value;
              && |contexts| == |old(contexts)| && |attempts| == |old(attempts)|
              && (attempts[k].phase == Fulfilled <==>
                    && !old(admissions)[old(attempts)[k].admission].closed && !old(contexts)[c].foregroundClosed
                    && InAuthority(old(contexts)[c].authority, old(registry), old(generation)))
              && (attempts[k].phase == Fulfilled ==> contexts == old(contexts) && registry == old(registry))
              && (attempts[k].phase != Fulfilled ==> attempts[k].phase == Rejected && contexts[c].foregroundClosed)
    {
      var c := attempts[k].context.value;
      var valid := Validate(contexts[c].authority);
      if admissions[attempts[k].admission].closed || contexts[c].foregroundClosed || !valid {
        var _ := CloseAuthority(c);
        attempts := attempts[k := attempts[k].(phase := Rejected)];
        return None;
      }
      attempts := attempts[k := attempts[k].(phase := Fulfilled)];
      return Some(c);
    }

    method Close(i: nat)
      requires i < |admissions|
      modifies this
      ensures View() == CloseAdmission(old(View()), i)
      ensures admissions == old(admissions)[i := old(admissions)[i].(closed := true)]
      ensures var c := old(admissions)[i].context;
              if c.Some? && c.value < |old(contexts)| then |contexts| == |old(contexts)| && contexts[c.value].foregroundClosed
              else contexts == old(contexts) && registry == old(registry)
    {
      var a := admissions[i];
      admissions := admissions[i := a.(closed := true)];
      if a.context.Some? && a.context.value < |contexts| {
        var _ := CloseAuthority(a.context.value);
      }
    }

    method RetainRecovery(c: nat) returns (handle: Option<nat>)
      requires c < |contexts|
      modifies this
      ensures View() == Retain(old(View()), c)
      ensures handle == if CanRetain(old(View()), c) then Some(|old(handles)|) else None
      ensures handle.Some? <==>
                && contexts[c].run !in old(holders) && !contexts[c].foregroundClosed
                && InAuthority(contexts[c].authority, registry, generation)
      ensures holders == if handle.Some? then old(holders)[contexts[c].run := handle.value] else old(holders)
      ensures handles == if handle.Some? then old(handles) + [Handle(contexts[c].run, c)] else old(handles)
    {
      var run := contexts[c].run;
      var valid := Validate(contexts[c].authority);
      if contexts[c].foregroundClosed || run in holders || !valid {
        return None;
      }
      holders := holders[run := |handles|];
      handles := handles + [Handle(run, c)];
      return Some(|handles| - 1);
    }

    method ReleaseRecovery(h: nat)
      requires h < |handles|
      modifies this
      ensures View() == ReleaseHandle(old(View()), h)
      ensures var run := handles[h].run;
              if run in old(holders) && old(holders)[run] < |handles| && handles[old(holders)[run]].context == handles[h].context
              then holders == old(holders) - {run} else holders == old(holders)
    {
      var run := handles[h].run;
      if run in holders && holders[run] < |handles| && handles[holders[run]].context == handles[h].context {
        holders := holders - {run};
      }
    }
  }
}
