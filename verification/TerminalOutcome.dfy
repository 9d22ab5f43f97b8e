/** Attempt terminals of an agent run: the observation merge, failure replacement,
    and the projection to and from the legacy flag record. */
module TerminalOutcome {
  import opened Base

  datatype FailureSource = FromPrompt | FromCompaction | FromPrecheck | FromBeforeRunHook

  /** The thrown value; only whether it is null or undefined matters here. */
  datatype ErrorValue = Nullish | Reason(text: string)

  datatype Failure = Failure(source: FailureSource, error: ErrorValue)

  datatype Stage = ToolExecution | Compaction

  datatype Phase = InPrompt | During(stage: Stage)

  datatype AbortSource = YieldCleanup | RuntimeAbort | ExternalAbort

  datatype TimeoutSource = RuntimeTimeout | IdleTimeout | RunBudget | ExternalTimeout

  /** A timeout whose source is a mere observation has its own constructor. */
  datatype Terminal =
    | Ok
    | Aborted(origin: AbortSource, failure: Option<Failure>, observed: Option<Stage>)
    | ObservedTimeout(stage: Stage, failure: Option<Failure>)
    | TimedOut(phase: Phase, source: TimeoutSource, aborted: bool, failure: Option<Failure>)
    | Failed(cause: Failure, observed: Option<Stage>)

  predicate IsTimeout(t: Terminal) {
    t.ObservedTimeout? || t.TimedOut?
  }

  function KindRank(t: Terminal): nat {
    match t
    case Ok => 0
    case Failed(_, _) => 1
    case Aborted(_, _, _) => 2
    case ObservedTimeout(_, _) => 3
    case TimedOut(_, _, _, _) => 3
  }

  function PhaseRank(p: Phase): nat {
    match p
    case InPrompt => 0
    case During(ToolExecution) => 1
    case During(Compaction) => 2
  }

  function SourceRank(s: TimeoutSource): nat {
    match s
    case RuntimeTimeout => 1
    case IdleTimeout => 2
    case RunBudget => 3
    case ExternalTimeout => 4
  }

  function TimeoutRank(t: Terminal): nat
    requires IsTimeout(t)
  {
    if t.ObservedTimeout? then 0 else SourceRank(t.source)
  }

  function AbortRank(a: AbortSource): nat {
    match a
    case YieldCleanup => 0
    case RuntimeAbort => 1
    case ExternalAbort => 2
  }

  function TimeoutPhase(t: Terminal): Phase
    requires IsTimeout(t)
  {
    if t.ObservedTimeout? then During(t.stage) else t.phase
  }

  function MergePhase(phase: Phase, observed: Option<Stage>): Phase {
    if observed.Some? && PhaseRank(During(observed.value)) > PhaseRank(phase)
    then During(observed.value) else phase
  }

  function FailureOf(t: Terminal): Option<Failure> {
    match t
    case Ok => None
    case Failed(cause, _) => Some(cause)
    case Aborted(_, failure, _) => failure
    case ObservedTimeout(_, failure) => failure
    case TimedOut(_, _, _, failure) => failure
  }

  function WithFailure(t: Terminal, failure: Option<Failure>): Terminal {
    if failure.None? then t else
    match t
    case Ok => t
    case Failed(_, observed) => Failed(failure.value, observed)
    case Aborted(origin, _, observed) => Aborted(origin, failure, observed)
    case ObservedTimeout(stage, _) => ObservedTimeout(stage, failure)
    case TimedOut(phase, source, aborted, _) => TimedOut(phase, source, aborted, failure)
  }

  function WithObservation(t: Terminal, stage: Stage): Terminal
    requires t.Aborted? || t.Failed?
  {
    var observed := if t.observed == Some(Compaction) || stage == Compaction then Compaction else ToolExecution;
    if t.Aborted? then Aborted(t.origin, t.failure, Some(observed)) else Failed(t.cause, Some(observed))
  }

  function WithObservations(t: Terminal, first: Option<Stage>, second: Option<Stage>): (r: Terminal)
    requires t.Aborted? || t.Failed?
  {
    var once := if first.Some? then WithObservation(t, first.value) else t;
    if second.Some? then WithObservation(once, second.value) else once
  }

  function MergeTimeouts(current: Terminal, incoming: Terminal, failure: Option<Failure>): Terminal
    requires IsTimeout(current) && IsTimeout(incoming)
  {
    var phase :=
      if PhaseRank(TimeoutPhase(incoming)) > PhaseRank(TimeoutPhase(current))
      then TimeoutPhase(incoming) else TimeoutPhase(current);
    var selected := if TimeoutRank(incoming) > TimeoutRank(current) then incoming else current;
    if selected.ObservedTimeout? then
      var stage :=
        if TimeoutPhase(current) == During(Compaction) || TimeoutPhase(incoming) == During(Compaction)
        then Compaction else ToolExecution;
      WithFailure(ObservedTimeout(stage, None), failure)
    else
      var aborted := (current.TimedOut? && current.aborted) || (incoming.TimedOut? && incoming.aborted);
      WithFailure(TimedOut(phase, selected.source, aborted, None), failure)
  }

  /** A terminal timeout absorbs an abort or a failure. */
  function AbsorbInterruption(timeout: Terminal, other: Terminal, failure: Option<Failure>): Terminal
    requires timeout.TimedOut?
    requires other.Aborted? || other.Failed?
  {
    var source := if other.Aborted? && other.origin == ExternalAbort then ExternalTimeout else timeout.source;
    var phase := MergePhase(timeout.phase, other.observed);
    var aborted := (other.Aborted? && other.origin != YieldCleanup) || timeout.aborted;
    WithFailure(TimedOut(phase, source, aborted, timeout.failure), failure)
  }

  function MergeInterruptions(current: Terminal, incoming: Terminal, failure: Option<Failure>): Terminal
    requires current.Aborted? || current.Failed?
    requires incoming.Aborted? || incoming.Failed?
  {
    var selected :=
      if current.Aborted? && incoming.Aborted? then
        Aborted(if AbortRank(incoming.origin) > AbortRank(current.origin) then incoming.origin else current.origin, None, None)
      else if KindRank(incoming) >= KindRank(current) then incoming else current;
    WithFailure(WithObservations(selected, current.observed, incoming.observed), failure)
  }

  /** Merges one more observation into the terminal seen so far. */
  function Merge(current: Terminal, incoming: Terminal): Terminal {
    if incoming.Ok? then current else
    var failure := OrElse(FailureOf(incoming), FailureOf(current));
    if incoming.ObservedTimeout? && !IsTimeout(current) then
      if current.Ok? then WithFailure(incoming, failure)
      else WithFailure(WithObservation(current, incoming.stage), failure)
    else if current.ObservedTimeout? && !IsTimeout(incoming) then
      WithFailure(WithObservation(incoming, current.stage), failure)
    else if IsTimeout(current) && IsTimeout(incoming) then
      MergeTimeouts(current, incoming, failure)
    else if (current.Aborted? || current.Failed?) && IsTimeout(incoming) then
      AbsorbInterruption(incoming, current, failure)
    else if IsTimeout(current) && (incoming.Aborted? || incoming.Failed?) then
      AbsorbInterruption(current, incoming, failure)
    else if (current.Aborted? || current.Failed?) && (incoming.Aborted? || incoming.Failed?) then
      MergeInterruptions(current, incoming, failure)
    else
      WithFailure(if KindRank(incoming) >= KindRank(current) then incoming else current, failure)
  }

  /** Replaces the failure detail, or clears it. */
  function SetFailure(t: Terminal, failure: Option<Failure>): Terminal {
    if failure.None? then
      match t
      case Ok => t
      case Failed(_, observed) => if observed.Some? then ObservedTimeout(observed.value, None) else Ok
      case Aborted(origin, _, observed) => Aborted(origin, None, observed)
      case ObservedTimeout(stage, _) => ObservedTimeout(stage, None)
      case TimedOut(phase, source, aborted, _) => TimedOut(phase, source, aborted, None)
    else
      match t
      case ObservedTimeout(stage, _) => Failed(failure.value, Some(stage))
      case Failed(_, observed) => Failed(failure.value, observed)
      case Ok => Failed(failure.value, None)
      case Aborted(origin, _, observed) => Aborted(origin, failure, observed)
      case TimedOut(phase, source, aborted, _) => TimedOut(phase, source, aborted, failure)
  }

  // ---------------------------------------------------------------------------
  // Merge as a componentwise maximum
  // ---------------------------------------------------------------------------

  /** The independent axes a merge accumulates. The abort axis is 0 for none, then
      yield cleanup, runtime, external; the stage axis is 0 for none. */
  datatype Axes = Axes(timeout: nat, abort: nat, stage: nat, failedKind: bool, failure: Option<Failure>)

  function StageAxis(observed: Option<Stage>): nat {
    if observed.None? then 0 else PhaseRank(During(observed.value))
  }

  function AxesOf(t: Terminal): Axes {
    match t
    case Ok => Axes(0, 0, 0, false, None)
    case Failed(cause, observed) => Axes(0, 0, StageAxis(observed), true, Some(cause))
    case Aborted(origin, failure, observed) => Axes(0, 1 + AbortRank(origin), StageAxis(observed), false, failure)
    case ObservedTimeout(stage, failure) => Axes(0, 0, StageAxis(Some(stage)), false, failure)
    case TimedOut(phase, source, aborted, failure) =>
      Axes(SourceRank(source), if aborted then 2 else 0, PhaseRank(phase), false, failure)
  }

  function Max(a: nat, b: nat): nat {
    if a > b then a else b
  }

  /** Every axis is a maximum except the failure, which is the latest one. */
  function Join(a: Axes, b: Axes): Axes {
    Axes(Max(a.timeout, b.timeout), Max(a.abort, b.abort), Max(a.stage, b.stage),
         a.failedKind || b.failedKind, OrElse(b.failure, a.failure))
  }

  predicate WellFormed(x: Axes) {
    && x.timeout <= 4 && x.abort <= 3 && x.stage <= 2
    && (x.failedKind ==> x.failure.Some?)
    && (x.timeout == 0 && x.abort == 0 && x.stage == 0 && x.failure.Some? ==> x.failedKind)
  }

  function SourceOfRank(rank: nat): TimeoutSource {
    if rank <= 1 then RuntimeTimeout else if rank == 2 then IdleTimeout
    else if rank == 3 then RunBudget else ExternalTimeout
  }

  function StageOfRank(rank: nat): Option<Stage> {
    if rank == 0 then None else if rank == 1 then Some(ToolExecution) else Some(Compaction)
  }

  function TerminalOf(x: Axes): Terminal {
    if x.timeout > 0 then
      TimedOut(if x.stage == 0 then InPrompt else During(StageOfRank(x.stage).value),
               if x.abort == 3 then ExternalTimeout else SourceOfRank(x.timeout),
               x.abort >= 2, x.failure)
    else if x.abort > 0 then
      Aborted(if x.abort == 1 then YieldCleanup else if x.abort == 2 then RuntimeAbort else ExternalAbort,
              x.failure, StageOfRank(x.stage))
    else if x.failedKind && x.failure.Some? then Failed(x.failure.value, StageOfRank(x.stage))
    else if x.stage > 0 then ObservedTimeout(StageOfRank(x.stage).value, x.failure)
    else Ok
  }

  lemma AxesWellFormed(t: Terminal)
    ensures WellFormed(AxesOf(t))
    ensures TerminalOf(AxesOf(t)) == t
  {
    match t
    case Ok =>
    case Failed(_, _) =>
    case Aborted(_, _, _) =>
    case ObservedTimeout(_, _) =>
    case TimedOut(_, _, _, _) =>
  }

  ghost predicate StageKnown(s: Stage)
    ensures StageKnown(s)
  {
    s == ToolExecution || s == Compaction
  }

  /** Joining the axes of `a` and `b`, with the failure already resolved. */
  function Joined(a: Terminal, b: Terminal, failure: Option<Failure>): Terminal {
    TerminalOf(Join(AxesOf(a), AxesOf(b)).(failure := failure))
  }

  lemma PhaseOfRank(p: Phase, q: Phase)
    ensures PhaseRank(p) == PhaseRank(q) ==> p == q
    ensures (if PhaseRank(p) == 0 then InPrompt else During(StageOfRank(PhaseRank(p)).value)) == p
  {
    assert p.During? ==> StageKnown(p.stage);
    assert q.During? ==> StageKnown(q.stage);
  }

  lemma SourceRankInvertible(s: TimeoutSource)
    ensures 1 <= SourceRank(s) <= 4 && SourceOfRank(SourceRank(s)) == s
  {
    match s
    case RuntimeTimeout =>
    case IdleTimeout =>
    case RunBudget =>
    case ExternalTimeout =>
  }

  lemma ObservedTimeoutsJoin(a: Terminal, b: Terminal, f: Option<Failure>)
    requires a.ObservedTimeout? && b.ObservedTimeout?
    ensures MergeTimeouts(a, b, f) == Joined(a, b, f)
  {
    PhaseOfRank(TimeoutPhase(a), TimeoutPhase(b));
    PhaseOfRank(TimeoutPhase(b), TimeoutPhase(a));
    assert StageKnown(a.stage) && StageKnown(b.stage);
  }

  lemma BothTimedOutJoin(a: Terminal, b: Terminal, f: Option<Failure>)
    requires a.TimedOut? && b.TimedOut? && f == OrElse(FailureOf(b), FailureOf(a))
    ensures MergeTimeouts(a, b, f) == Joined(a, b, f)
  {
    PhaseOfRank(a.phase, b.phase);
    PhaseOfRank(b.phase, a.phase);
    SourceRankInvertible(a.source);
    SourceRankInvertible(b.source);
  }

  lemma ThenObservedJoin(a: Terminal, b: Terminal, f: Option<Failure>)
    requires a.TimedOut? && b.ObservedTimeout? && f == OrElse(FailureOf(b), FailureOf(a))
    ensures MergeTimeouts(a, b, f) == Joined(a, b, f)
  {
    PhaseOfRank(a.phase, TimeoutPhase(b));
    PhaseOfRank(TimeoutPhase(b), a.phase);
    SourceRankInvertible(a.source);
  }

  lemma ThenTimedOutJoin(a: Terminal, b: Terminal, f: Option<Failure>)
    requires a.ObservedTimeout? && b.TimedOut? && f == OrElse(FailureOf(b), FailureOf(a))
    ensures MergeTimeouts(a, b, f) == Joined(a, b, f)
  {
    PhaseOfRank(TimeoutPhase(a), b.phase);
    PhaseOfRank(b.phase, TimeoutPhase(a));
    SourceRankInvertible(b.source);
  }

  lemma TimeoutsJoin(a: Terminal, b: Terminal)
    requires IsTimeout(a) && IsTimeout(b)
    ensures var f := OrElse(FailureOf(b), FailureOf(a)); MergeTimeouts(a, b, f) == Joined(a, b, f)
  {
    var f := OrElse(FailureOf(b), FailureOf(a));
    if a.ObservedTimeout? && b.ObservedTimeout? {
      ObservedTimeoutsJoin(a, b, f);
    } else if b.ObservedTimeout? {
      ThenObservedJoin(a, b, f);
    } else if a.ObservedTimeout? {
      ThenTimedOutJoin(a, b, f);
    } else {
      BothTimedOutJoin(a, b, f);
    }
  }

  /** With the failure resolved, the order of the two sides does not matter. */
  lemma JoinedSymmetric(a: Terminal, b: Terminal, f: Option<Failure>)
    ensures Joined(a, b, f) == Joined(b, a, f)
  {
    assert Join(AxesOf(a), AxesOf(b)).(failure := f) == Join(AxesOf(b), AxesOf(a)).(failure := f);
  }

  lemma AbsorbingJoins(timeout: Terminal, other: Terminal, f: Option<Failure>)
    requires timeout.TimedOut? && (other.Aborted? || other.Failed?)
    requires f.None? ==> timeout.failure.None?
    ensures AbsorbInterruption(timeout, other, f) == Joined(timeout, other, f)
  {
    assert other.observed.Some? ==> StageKnown(other.observed.value);
    assert timeout.phase.During? ==> StageKnown(timeout.phase.stage);
  }

  lemma ObservationsAccumulate(t: Terminal, first: Option<Stage>, second: Option<Stage>)
    requires t.Aborted? || t.Failed?
    ensures var r := WithObservations(t, first, second);
            && (if t.Aborted? then r.Aborted? && r.origin == t.origin else r.Failed?)
            && r.observed == StageOfRank(Max(StageAxis(t.observed), Max(StageAxis(first), StageAxis(second))))
  {
    assert t.observed.Some? ==> StageKnown(t.observed.value);
    assert first.Some? ==> StageKnown(first.value);
    assert second.Some? ==> StageKnown(second.value);
  }

  lemma InterruptionsJoin(a: Terminal, b: Terminal)
    requires (a.Aborted? || a.Failed?) && (b.Aborted? || b.Failed?)
    ensures var f := OrElse(FailureOf(b), FailureOf(a)); MergeInterruptions(a, b, f) == Joined(a, b, f)
  {
    var selected :=
      if a.Aborted? && b.Aborted?
      then Aborted(if AbortRank(b.origin) > AbortRank(a.origin) then b.origin else a.origin, None, None)
      else if KindRank(b) >= KindRank(a) then b else a;
    ObservationsAccumulate(selected, a.observed, b.observed);
  }

  lemma ObservingJoins(t: Terminal, seen: Terminal, f: Option<Failure>)
    requires (t.Aborted? || t.Failed?) && seen.ObservedTimeout?
    requires f == OrElse(FailureOf(t), FailureOf(seen)) || f == OrElse(FailureOf(seen), FailureOf(t))
    ensures WithFailure(WithObservation(t, seen.stage), f) == Joined(t, seen, f)
  {
    assert StageKnown(seen.stage);
    assert t.observed.Some? ==> StageKnown(t.observed.value);
  }

  /** The branching merge is exactly the join of the axes. */
  lemma MergeIsJoin(a: Terminal, b: Terminal)
    ensures Merge(a, b) == TerminalOf(Join(AxesOf(a), AxesOf(b)))
  {
    var f := OrElse(FailureOf(b), FailureOf(a));
    assert TerminalOf(Join(AxesOf(a), AxesOf(b))) == Joined(a, b, f);
    AxesWellFormed(a);
    AxesWellFormed(b);
    JoinedSymmetric(a, b, f);
    if b.Ok? || a.Ok? {
    } else if IsTimeout(a) && IsTimeout(b) {
      TimeoutsJoin(a, b);
    } else if b.ObservedTimeout? {
      ObservingJoins(a, b, f);
    } else if a.ObservedTimeout? {
      ObservingJoins(b, a, f);
    } else if b.TimedOut? {
      AbsorbingJoins(b, a, f);
    } else if a.TimedOut? {
      AbsorbingJoins(a, b, f);
    } else {
      InterruptionsJoin(a, b);
    }
  }

  /** The axes a terminal remembers: a timeout forgets a yield cleanup and turns an
      external abort into its own source; an interruption forgets the failed kind. */
  function Remembered(x: Axes): Axes {
    if x.timeout > 0 then
      Axes(if x.abort == 3 then 4 else x.timeout, if x.abort >= 2 then 2 else 0, x.stage, false, x.failure)
    else if x.abort > 0 then x.(failedKind := false)
    else x
  }

  lemma TerminalRemembers(x: Axes)
    requires WellFormed(x)
    ensures AxesOf(TerminalOf(x)) == Remembered(x)
  {
  }

  lemma JoinAfterRemembering(x: Axes, y: Axes)
    requires WellFormed(x) && WellFormed(y)
    ensures Remembered(Join(Remembered(x), y)) == Remembered(Join(x, y))
    ensures Remembered(Join(y, Remembered(x))) == Remembered(Join(y, x))
    ensures WellFormed(Join(Remembered(x), y)) && WellFormed(Join(x, y))
    ensures WellFormed(Join(y, Remembered(x))) && WellFormed(Join(y, x))
  {
  }

  lemma SameMemorySameTerminal(x: Axes, y: Axes)
    requires WellFormed(x) && WellFormed(y) && Remembered(x) == Remembered(y)
    ensures TerminalOf(x) == TerminalOf(y)
  {
    TerminalRemembers(x);
    TerminalRemembers(y);
    AxesWellFormed(TerminalOf(x));
    AxesWellFormed(TerminalOf(y));
  }

  /** What a terminal forgets about its axes never matters to a later join. */
  lemma ForgettingIsHarmless(x: Axes, y: Axes)
    requires WellFormed(x) && WellFormed(y)
    ensures TerminalOf(Join(AxesOf(TerminalOf(x)), y)) == TerminalOf(Join(x, y))
    ensures TerminalOf(Join(y, AxesOf(TerminalOf(x)))) == TerminalOf(Join(y, x))
  {
    TerminalRemembers(x);
    JoinAfterRemembering(x, y);
    SameMemorySameTerminal(Join(Remembered(x), y), Join(x, y));
    SameMemorySameTerminal(Join(y, Remembered(x)), Join(y, x));
  }

  lemma JoinAssociative(x: Axes, y: Axes, z: Axes)
    ensures Join(Join(x, y), z) == Join(x, Join(y, z))
  {
  }

  lemma JoinWellFormed(x: Axes, y: Axes)
    requires WellFormed(x) && WellFormed(y)
    ensures WellFormed(Join(x, y))
  {
  }

  /** Merging three terminals joins their three axes, from either side. */
  lemma MergeThree(a: Terminal, b: Terminal, c: Terminal)
    ensures Merge(Merge(a, b), c) == TerminalOf(Join(Join(AxesOf(a), AxesOf(b)), AxesOf(c)))
    ensures Merge(a, Merge(b, c)) == TerminalOf(Join(AxesOf(a), Join(AxesOf(b), AxesOf(c))))
  {
    hide Merge, Join, WellFormed, TerminalOf, AxesOf;
    var x, y, z := AxesOf(a), AxesOf(b), AxesOf(c);
    AxesWellFormed(a);
    AxesWellFormed(b);
    AxesWellFormed(c);
    JoinWellFormed(x, y);
    JoinWellFormed(y, z);
    MergeIsJoin(a, b);
    MergeIsJoin(b, c);
    MergeIsJoin(Merge(a, b), c);
    MergeIsJoin(a, Merge(b, c));
    ForgettingIsHarmless(Join(x, y), z);
    ForgettingIsHarmless(Join(y, z), x);
  }

  lemma MergeAssociative(a: Terminal, b: Terminal, c: Terminal)
    ensures Merge(Merge(a, b), c) == Merge(a, Merge(b, c))
  {
    hide Merge, Join;
    MergeThree(a, b, c);
    JoinAssociative(AxesOf(a), AxesOf(b), AxesOf(c));
  }

  lemma MergeIdempotentWithIdentity(t: Terminal)
    ensures Merge(t, t) == t
    ensures Merge(Ok, t) == t
    ensures Merge(t, Ok) == t
  {
    AxesWellFormed(t);
    MergeIsJoin(t, t);
    MergeIsJoin(Ok, t);
  }

  // ---------------------------------------------------------------------------
  // Up to the content of the failure, merging is a set operation
  // ---------------------------------------------------------------------------

  function BlankFailure(failure: Option<Failure>): Option<Failure> {
    if failure.None? then None else Some(Failure(FromPrompt, Nullish))
  }

  /** The terminal with the content of its failure erased: everything else stays, also whether there is one. */
  function Erased(t: Terminal): Terminal {
    match t
    case Ok => Ok
    case Failed(cause, observed) => Failed(BlankFailure(Some(cause)).value, observed)
    case Aborted(origin, failure, observed) => Aborted(origin, BlankFailure(failure), observed)
    case ObservedTimeout(stage, failure) => ObservedTimeout(stage, BlankFailure(failure))
    case TimedOut(phase, source, aborted, failure) => TimedOut(phase, source, aborted, BlankFailure(failure))
  }

  function ErasedAxes(x: Axes): Axes {
    x.(failure := BlankFailure(x.failure))
  }

  lemma ErasingAxes(t: Terminal, x: Axes)
    ensures Erased(TerminalOf(x)) == TerminalOf(ErasedAxes(x))
    ensures AxesOf(Erased(t)) == ErasedAxes(AxesOf(t))
  {
  }

  lemma ErasedMerge(a: Terminal, b: Terminal)
    ensures Erased(Merge(a, b)) == TerminalOf(ErasedAxes(Join(ErasedAxes(AxesOf(a)), ErasedAxes(AxesOf(b)))))
  {
    MergeIsJoin(a, b);
    ErasingAxes(a, Join(AxesOf(a), AxesOf(b)));
  }

  /** Merging commutes once the content of the failure is erased. */
  lemma MergeCommutes(a: Terminal, b: Terminal)
    ensures Erased(Merge(a, b)) == Erased(Merge(b, a))
  {
    ErasedMerge(a, b);
    ErasedMerge(b, a);
  }

  lemma MergeRespectsErasure(a: Terminal, b: Terminal, c: Terminal, d: Terminal)
    requires Erased(a) == Erased(b) && Erased(c) == Erased(d)
    ensures Erased(Merge(a, c)) == Erased(Merge(b, d))
  {
    ErasingAxes(a, AxesOf(a));
    ErasingAxes(b, AxesOf(b));
    ErasingAxes(c, AxesOf(c));
    ErasingAxes(d, AxesOf(d));
    ErasedMerge(a, c);
    ErasedMerge(b, d);
  }

  /** Observing again what a run has observed changes nothing but the failure's content. */
  lemma {:induction false} Reobserved(xs: seq<Terminal>, t: Terminal)
    requires t in xs
    ensures Erased(Merge(MergeAll(xs), t)) == Erased(MergeAll(xs))
  {
    hide Merge, Erased;
    var rest, last := xs[..|xs| - 1], xs[|xs| - 1];
    var sofar := MergeAll(rest);
    MergeAssociative(sofar, last, t);
    if t == last {
      MergeIdempotentWithIdentity(t);
    } else {
      Reobserved(rest, t);
      MergeCommutes(last, t);
      MergeRespectsErasure(sofar, sofar, Merge(last, t), Merge(t, last));
      MergeAssociative(sofar, t, last);
      MergeRespectsErasure(Merge(sofar, t), sofar, last, last);
    }
  }

  lemma {:induction false} RunReobserved(xs: seq<Terminal>, ys: seq<Terminal>)
    requires forall t :: t in ys ==> t in xs
    ensures Erased(Merge(MergeAll(xs), MergeAll(ys))) == Erased(MergeAll(xs))
  {
    hide Merge, Erased;
    if ys == [] {
      MergeIdempotentWithIdentity(MergeAll(xs));
    } else {
      var rest, last := ys[..|ys| - 1], ys[|ys| - 1];
      RunReobserved(xs, rest);
      MergeAssociative(MergeAll(xs), MergeAll(rest), last);
      MergeRespectsErasure(Merge(MergeAll(xs), MergeAll(rest)), MergeAll(xs), last, last);
      Reobserved(xs, last);
    }
  }

  /** However the observations of a run are reordered or repeated, the terminal is the same but for
      the content of its failure. */
  lemma TerminalOfObservationSet(xs: seq<Terminal>, ys: seq<Terminal>)
    requires forall t :: t in xs <==> t in ys
    ensures Erased(MergeAll(xs)) == Erased(MergeAll(ys))
  {
    hide Merge, Erased;
    RunReobserved(xs, ys);
    RunReobserved(ys, xs);
    MergeCommutes(MergeAll(xs), MergeAll(ys));
  }

  // ---------------------------------------------------------------------------
  // Projection, and the closed form of a whole run of observations
  // ---------------------------------------------------------------------------

  /** The projected flags, without the error value and its source. */
  datatype Flags = Flags(
    aborted: bool, cleanupYieldAborted: bool, externalAbort: bool, failed: bool, idleTimedOut: bool,
    interrupted: bool, timedOut: bool, timedOutByRunBudget: bool,
    timedOutDuringCompaction: bool, timedOutDuringToolExecution: bool)

  datatype Projection = Projection(flags: Flags, promptError: ErrorValue, promptErrorSource: Option<FailureSource>)

  predicate SeenDuring(t: Terminal, stage: Stage) {
    match t
    case Ok => false
    case Failed(_, observed) => observed == Some(stage)
    case Aborted(_, _, observed) => observed == Some(stage)
    case ObservedTimeout(s, _) => s == stage
    case TimedOut(phase, _, _, _) => phase == During(stage)
  }

  predicate External(t: Terminal) {
    (t.Aborted? && t.origin == ExternalAbort) || (t.TimedOut? && t.source == ExternalTimeout)
  }

  predicate AbortsRun(t: Terminal) {
    (t.Aborted? && t.origin != YieldCleanup) || (t.TimedOut? && t.aborted)
  }

  function FlagsOf(t: Terminal): Flags {
    Flags(
      AbortsRun(t),
      t.Aborted? && t.origin == YieldCleanup,
      External(t),
      FailureOf(t).Some?,
      t.TimedOut? && t.source == IdleTimeout,
      External(t) || t.TimedOut?,
      t.TimedOut?,
      t.TimedOut? && t.source == RunBudget,
      SeenDuring(t, Compaction),
      SeenDuring(t, ToolExecution))
  }

  function Project(t: Terminal): Projection {
    var failure := FailureOf(t);
    Projection(FlagsOf(t),
               if failure.Some? then failure.value.error else Nullish,
               if failure.Some? then Some(failure.value.source) else None)
  }

  /** The terminal after a run of observations. */
  function MergeAll(observations: seq<Terminal>): Terminal {
    if observations == [] then Ok
    else Merge(MergeAll(observations[..|observations| - 1]), observations[|observations| - 1])
  }

  /** The flags of a run, read off the set of its observations: no order, no multiplicity. */
  ghost function ClosedForm(seen: set<Terminal>): Flags {
    var external := exists t :: t in seen && External(t);
    var aborted := exists t :: t in seen && AbortsRun(t);
    var timedOut := exists t :: t in seen && t.TimedOut?;
    var budget := exists t :: t in seen && t.TimedOut? && t.source == RunBudget;
    var compaction := exists t :: t in seen && SeenDuring(t, Compaction);
    Flags(
      aborted,
      (exists t :: t in seen && t.Aborted? && t.origin == YieldCleanup) && !aborted && !timedOut,
      external,
      exists t :: t in seen && FailureOf(t).Some?,
      (exists t :: t in seen && t.TimedOut? && t.source == IdleTimeout) && !external && !budget,
      external || timedOut,
      timedOut,
      budget && !external,
      compaction,
      (exists t :: t in seen && SeenDuring(t, ToolExecution)) && !compaction)
  }

  function CombineFlags(a: Flags, b: Flags): Flags {
    var external := a.externalAbort || b.externalAbort;
    var aborted := a.aborted || b.aborted;
    var timedOut := a.timedOut || b.timedOut;
    var budget := (a.timedOutByRunBudget || b.timedOutByRunBudget) && !external;
    var compaction := a.timedOutDuringCompaction || b.timedOutDuringCompaction;
    Flags(
      aborted,
      (a.cleanupYieldAborted || b.cleanupYieldAborted) && !aborted && !timedOut,
      external,
      a.failed || b.failed,
      (a.idleTimedOut || b.idleTimedOut) && !external && !budget,
      external || timedOut,
      timedOut,
      budget,
      compaction,
      (a.timedOutDuringToolExecution || b.timedOutDuringToolExecution) && !compaction)
  }

  /** The same flags, read off the axes. */
  function FlagsOfAxes(x: Axes): Flags {
    var external := x.timeout == 4 || x.abort == 3;
    Flags(x.abort >= 2, x.abort == 1 && x.timeout == 0, external, x.failure.Some?,
          x.timeout == 2 && !external, external || x.timeout > 0, x.timeout > 0,
          x.timeout == 3 && !external, x.stage == 2, x.stage == 1)
  }

  lemma FlagsOfAxesCorrect(x: Axes)
    requires WellFormed(x)
    ensures FlagsOf(TerminalOf(x)) == FlagsOfAxes(x)
    ensures FailureOf(TerminalOf(x)) == x.failure
  {
  }

  lemma JoinCombinesFlags(x: Axes, y: Axes)
    requires WellFormed(x) && WellFormed(y)
    ensures FlagsOfAxes(Join(x, y)) == CombineFlags(FlagsOfAxes(x), FlagsOfAxes(y))
  {
  }

  lemma JoinedTerminalFlags(merged: Terminal, a: Terminal, b: Terminal)
    requires merged == TerminalOf(Join(AxesOf(a), AxesOf(b)))
    ensures FlagsOf(merged) == CombineFlags(FlagsOf(a), FlagsOf(b))
    ensures FailureOf(merged) == OrElse(FailureOf(b), FailureOf(a))
  {
    AxesWellFormed(a);
    AxesWellFormed(b);
    FlagsOfAxesCorrect(AxesOf(a));
    FlagsOfAxesCorrect(AxesOf(b));
    JoinCombinesFlags(AxesOf(a), AxesOf(b));
    FlagsOfAxesCorrect(Join(AxesOf(a), AxesOf(b)));
  }

  lemma MergeCombinesFlags(a: Terminal, b: Terminal)
    ensures FlagsOf(Merge(a, b)) == CombineFlags(FlagsOf(a), FlagsOf(b))
    ensures FailureOf(Merge(a, b)) == OrElse(FailureOf(b), FailureOf(a))
  {
    MergeIsJoin(a, b);
    JoinedTerminalFlags(Merge(a, b), a, b);
  }

  lemma ClosedFormGrows(seen: set<Terminal>, t: Terminal)
    ensures ClosedForm(seen + {t}) == CombineFlags(ClosedForm(seen), FlagsOf(t))
  {
    var more := seen + {t};
    assert t in more;
    assert forall u :: u in more <==> u in seen || u == t;
  }

  lemma {:induction false} FlagsOfRun(observations: seq<Terminal>)
    ensures FlagsOf(MergeAll(observations)) == ClosedForm(set t | t in observations)
  {
    if observations == [] {
      assert (set t | t in observations) == {};
    } else {
      var rest, last := observations[..|observations| - 1], observations[|observations| - 1];
      FlagsOfRun(rest);
      MergeCombinesFlags(MergeAll(rest), last);
      ClosedFormGrows((set t | t in rest), last);
      assert observations == rest + [last];
      assert (set t | t in observations) == (set t | t in rest) + {last};
    }
  }

  /** Reordering and repeating observations never changes a flag. */
  lemma OrderAndRepetitionIrrelevant(xs: seq<Terminal>, ys: seq<Terminal>)
    requires forall t :: t in xs <==> t in ys
    ensures FlagsOf(MergeAll(xs)) == FlagsOf(MergeAll(ys))
  {
    FlagsOfRun(xs);
    FlagsOfRun(ys);
    assert (set t | t in xs) == (set t | t in ys);
  }

  /** The error detail of a run is that of its latest failing observation. */
  lemma {:induction false} LatestFailureWins(observations: seq<Terminal>, i: nat)
    requires i < |observations| && FailureOf(observations[i]).Some?
    requires forall j :: i < j < |observations| ==> FailureOf(observations[j]).None?
    ensures FailureOf(MergeAll(observations)) == FailureOf(observations[i])
  {
    var rest, last := observations[..|observations| - 1], observations[|observations| - 1];
    MergeCombinesFlags(MergeAll(rest), last);
    if i < |rest| {
      LatestFailureWins(rest, i);
    }
  }

  /** Splitting a run anywhere and merging the two halves gives the same terminal. */
  lemma {:induction false} MergeAllConcat(xs: seq<Terminal>, ys: seq<Terminal>)
    ensures MergeAll(xs + ys) == Merge(MergeAll(xs), MergeAll(ys))
  {
    if ys == [] {
      assert xs + ys == xs;
    } else {
      var rest, last := ys[..|ys| - 1], ys[|ys| - 1];
      assert (xs + ys)[..|xs + ys| - 1] == xs + rest;
      MergeAllConcat(xs, rest);
      MergeAssociative(MergeAll(xs), MergeAll(rest), last);
    }
  }

  /** Replacing a failure touches no interruption flag, and the last replacement wins. */
  lemma SetFailureOnlyTouchesFailure(t: Terminal, f: Option<Failure>, g: Option<Failure>)
    ensures FlagsOf(SetFailure(t, f)) == FlagsOf(t).(failed := f.Some?)
    ensures FailureOf(SetFailure(t, f)) == f
    ensures SetFailure(SetFailure(t, f), g) == SetFailure(t, g)
  {
    match t
    case Ok =>
    case Failed(_, _) =>
    case Aborted(_, _, _) =>
    case ObservedTimeout(_, _) =>
    case TimedOut(_, _, _, _) =>
  }

  // ---------------------------------------------------------------------------
  // The legacy harness shape
  // ---------------------------------------------------------------------------

  datatype LegacyInput = LegacyInput(
    aborted: bool, externalAbort: bool, idleTimedOut: bool, promptError: ErrorValue,
    promptErrorSource: Option<FailureSource>, timedOut: bool, timedOutByRunBudget: bool,
    timedOutDuringCompaction: bool, timedOutDuringToolExecution: bool)

  function Normalize(input: LegacyInput): Terminal {
    var interrupted := input.aborted || input.externalAbort;
    var afterAbort :=
      if interrupted
      then Merge(Ok, Aborted(if input.externalAbort then ExternalAbort else RuntimeAbort, None, None))
      else Ok;
    var afterTimeout :=
      if input.timedOut || input.idleTimedOut || input.timedOutByRunBudget then
        Merge(afterAbort, TimedOut(
          if input.timedOutDuringCompaction then During(Compaction)
          else if input.timedOutDuringToolExecution then During(ToolExecution) else InPrompt,
          if input.externalAbort then ExternalTimeout
          else if input.timedOutByRunBudget then RunBudget
          else if input.idleTimedOut then IdleTimeout else RuntimeTimeout,
          interrupted, None))
      else if input.timedOutDuringCompaction || input.timedOutDuringToolExecution then
        Merge(afterAbort,
              ObservedTimeout(if input.timedOutDuringCompaction then Compaction else ToolExecution, None))
      else afterAbort;
    if input.promptError.Nullish? then afterTimeout
    else
      SetFailure(afterTimeout, Some(Failure(
        if input.promptErrorSource.Some? then input.promptErrorSource.value else FromPrompt,
        input.promptError)))
  }

  /** The projection read back as harness input. */
  function AsInput(p: Projection): LegacyInput {
    LegacyInput(p.flags.aborted, p.flags.externalAbort, p.flags.idleTimedOut, p.promptError,
                p.promptErrorSource, p.flags.timedOut, p.flags.timedOutByRunBudget,
                p.flags.timedOutDuringCompaction, p.flags.timedOutDuringToolExecution)
  }

  /** The terminals the legacy shape can express: no yield cleanup, no external timeout
      that left the run alive, no failure on a bare observation, no null error. */
  predicate Expressible(t: Terminal) {
    && (FailureOf(t).Some? ==> !FailureOf(t).value.error.Nullish?)
    && (t.Aborted? ==> t.origin != YieldCleanup)
    && (t.ObservedTimeout? ==> t.failure.None?)
    && (t.TimedOut? && t.source == ExternalTimeout ==> t.aborted)
  }

  /** The interruption the legacy flags describe, without any merging. */
  function Interruption(input: LegacyInput): Terminal {
    var interrupted := input.aborted || input.externalAbort;
    var stage :=
      if input.timedOutDuringCompaction then Some(Compaction)
      else if input.timedOutDuringToolExecution then Some(ToolExecution) else None;
    if input.timedOut || input.idleTimedOut || input.timedOutByRunBudget then
      TimedOut(if stage.None? then InPrompt else During(stage.value),
               if input.externalAbort then ExternalTimeout
               else if input.timedOutByRunBudget then RunBudget
               else if input.idleTimedOut then IdleTimeout else RuntimeTimeout,
               interrupted, None)
    else if interrupted then
      Aborted(if input.externalAbort then ExternalAbort else RuntimeAbort, None, stage)
    else if stage.Some? then ObservedTimeout(stage.value, None)
    else Ok
  }

  lemma AbortThenTimeout(origin: AbortSource, phase: Phase, source: TimeoutSource)
    requires origin != YieldCleanup
    requires origin == ExternalAbort ==> source == ExternalTimeout
    ensures Merge(Aborted(origin, None, None), TimedOut(phase, source, true, None)) == TimedOut(phase, source, true, None)
  {
  }

  lemma NormalizeMeaning(input: LegacyInput)
    ensures Normalize(input) ==
            if input.promptError.Nullish? then Interruption(input)
            else
              SetFailure(Interruption(input), Some(Failure(
                if input.promptErrorSource.Some? then input.promptErrorSource.value else FromPrompt,
                input.promptError)))
  {
    var origin := if input.externalAbort then ExternalAbort else RuntimeAbort;
    var abort := Aborted(origin, None, None);
    assert Merge(Ok, abort) == abort;
    assert forall s :: Merge(Ok, ObservedTimeout(s, None)) == ObservedTimeout(s, None);
    assert forall s :: Merge(abort, ObservedTimeout(s, None)) == Aborted(origin, None, Some(s));
    var i := Interruption(input);
    if i.TimedOut? {
      MergeIdempotentWithIdentity(i);
      if i.aborted {
        AbortThenTimeout(origin, i.phase, i.source);
      }
    }
  }

  lemma NormalizedIsExpressible(input: LegacyInput)
    ensures Expressible(Normalize(input))
  {
    NormalizeMeaning(input);
    var i := Interruption(input);
    assert Expressible(i) && FailureOf(i).None?;
    assert forall f: Failure :: !f.error.Nullish? ==> Expressible(SetFailure(i, Some(f)));
  }

  lemma InterruptionOfProjection(t: Terminal)
    requires Expressible(t)
    ensures Interruption(AsInput(Project(t))) == SetFailure(t, None)
  {
    assert (t.Aborted? || t.Failed?) && t.observed.Some? ==> StageKnown(t.observed.value);
    assert t.ObservedTimeout? ==> StageKnown(t.stage);
    assert t.TimedOut? && t.phase.During? ==> StageKnown(t.phase.stage);
  }

  /** Projecting and normalising again is the identity exactly on the expressible terminals. */
  lemma ProjectThenNormalize(t: Terminal)
    ensures Normalize(AsInput(Project(t))) == t <==> Expressible(t)
  {
    NormalizedIsExpressible(AsInput(Project(t)));
    if Expressible(t) {
      NormalizeMeaning(AsInput(Project(t)));
      InterruptionOfProjection(t);
      SetFailureOnlyTouchesFailure(t, None, FailureOf(t));
      assert FailureOf(t).None? ==> SetFailure(t, None) == t;
      assert FailureOf(t).Some? ==> SetFailure(t, FailureOf(t)) == t;
    }
  }

  lemma NormalizeRoundTrip(input: LegacyInput)
    ensures Normalize(AsInput(Project(Normalize(input)))) == Normalize(input)
  {
    NormalizedIsExpressible(input);
    ProjectThenNormalize(Normalize(input));
  }
}
