/** Per-key serialisation of requester work: each section waits for the tail of its key's chain,
    becomes the new tail, and the chain entry goes away when its tail has settled. */
module ExclusiveChains {
  import opened Base

  type Key = string

  /** `Settled` has not yet run its chain cleanup; how a section ended does not matter. */
  datatype Status = Waiting | Running | Settled | Cleaned

  datatype Section = Section(key: Key, previous: Option<nat>, status: Status)

  /** Sections are numbered in call order; `tails` is the chain map. */
  datatype Chains = Chains(sections: seq<Section>, tails: map<Key, nat>)

  predicate Ended(s: Section) {
    s.status.Settled? || s.status.Cleaned?
  }

  function SetStatus(c: Chains, i: nat, status: Status): Chains
    requires i < |c.sections|
  {
    c.(sections := c.sections[i := c.sections[i].(status := status)])
  }

  function Enqueue(c: Chains, key: Key): Chains {
    var previous := if key in c.tails then Some(c.tails[key]) else None;
    Chains(c.sections + [Section(key, previous, Waiting)], c.tails[key := |c.sections|])
  }

  function CleanUp(c: Chains, i: nat): Chains
    requires i < |c.sections|
  {
    var key := c.sections[i].key;
    var cleaned := SetStatus(c, i, Cleaned);
    if key in c.tails && c.tails[key] == i then cleaned.(tails := c.tails - {key}) else cleaned
  }

  /** A section settles whether its work succeeds or throws. */
  datatype Event = Call(key: Key) | StartWork(i: nat) | Settle(i: nat, ok: bool) | Drop(i: nat)

  predicate Enabled(c: Chains, e: Event) {
    match e
    case Call(_) => true
    case StartWork(i) =>
      i < |c.sections| && c.sections[i].status.Waiting? &&
      (c.sections[i].previous.Some? ==>
         c.sections[i].previous.value < |c.sections| && Ended(c.sections[c.sections[i].previous.value]))
    case Settle(i, _) => i < |c.sections| && c.sections[i].status.Running?
    case Drop(i) => i < |c.sections| && c.sections[i].status.Settled?
  }

  function Step(c: Chains, e: Event): Chains
    requires Enabled(c, e)
  {
    match e
    case Call(key) => Enqueue(c, key)
    case StartWork(i) => SetStatus(c, i, Running)
    case Settle(i, _) => SetStatus(c, i, Settled)
    case Drop(i) => CleanUp(c, i)
  }

  // ---------------------------------------------------------------------------
  // Invariant
  // ---------------------------------------------------------------------------

  /** No later section of the key exists. */
  ghost predicate IsLast(c: Chains, i: nat) {
    i < |c.sections| && forall j :: i < j < |c.sections| ==> c.sections[j].key != c.sections[i].key
  }

  /** The tails are the latest sections of their keys, exactly those not cleaned up yet. */
  ghost predicate TailsSound(c: Chains) {
    && (forall k :: k in c.tails ==>
          c.tails[k] < |c.sections| && c.sections[c.tails[k]].key == k && IsLast(c, c.tails[k])
          && !c.sections[c.tails[k]].status.Cleaned?)
    && (forall i: nat :: IsLast(c, i) && !c.sections[i].status.Cleaned? ==>
          c.sections[i].key in c.tails && c.tails[c.sections[i].key] == i)
  }

  /** `j` was called before `i` on the same key. */
  ghost predicate Before(c: Chains, j: nat, i: nat) {
    j < i < |c.sections| && c.sections[j].key == c.sections[i].key
  }

  /** `i` has not started, and the section it waits for is `j` or a later one of the key. */
  ghost predicate WaitsBehind(c: Chains, j: nat, i: nat)
    requires Before(c, j, i)
  {
    && c.sections[i].status.Waiting? && c.sections[i].previous.Some?
    && j <= c.sections[i].previous.value && Before(c, c.sections[i].previous.value, i)
  }

  ghost predicate OrderSound(c: Chains) {
    forall j: nat, i: nat {:trigger Before(c, j, i)} :: Before(c, j, i) ==> Ended(c.sections[j]) || WaitsBehind(c, j, i)
  }

  ghost predicate PreviousSound(c: Chains) {
    forall i: nat :: i < |c.sections| && c.sections[i].previous.Some? ==> Before(c, c.sections[i].previous.value, i)
  }

  ghost predicate Inv(c: Chains) {
    TailsSound(c) && OrderSound(c) && PreviousSound(c)
  }

  lemma EmptyInv()
    ensures Inv(Chains([], map[]))
  {
  }

  lemma {:induction false} LastExists(c: Chains, i: nat) returns (last: nat)
    requires i < |c.sections|
    ensures i <= last < |c.sections| && c.sections[last].key == c.sections[i].key && IsLast(c, last)
    decreases |c.sections| - i
  {
    if j :| i < j < |c.sections| && c.sections[j].key == c.sections[i].key {
      last := LastExists(c, j);
    } else {
      last := i;
    }
  }

  lemma EnqueueTails(c: Chains, key: Key)
    requires TailsSound(c)
    ensures TailsSound(Enqueue(c, key))
  {
    var d, n := Enqueue(c, key), |c.sections|;
    forall i: nat | IsLast(d, i) && i < n ensures IsLast(c, i) && c.sections[i].key != key {
      assert d.sections[n].key == key;
      assert forall m :: i < m < n ==> c.sections[m].key == d.sections[m].key;
    }
  }

  lemma EnqueueOrder(c: Chains, key: Key)
    requires TailsSound(c) && OrderSound(c)
    ensures OrderSound(Enqueue(c, key))
  {
    var d, n := Enqueue(c, key), |c.sections|;
    forall j: nat, i: nat | Before(d, j, i) ensures Ended(d.sections[j]) || WaitsBehind(d, j, i) {
      if i < n {
        assert Before(c, j, i);
        assert Ended(c.sections[j]) || WaitsBehind(c, j, i);
      } else if !Ended(c.sections[j]) {
        var last := LastExists(c, j);
        assert !c.sections[last].status.Cleaned? by {
          assert j < last ==> Before(c, j, last);
        }
        assert d.sections[n].previous == Some(last);
      }
    }
  }

  lemma SameLasts(c: Chains, d: Chains)
    requires |d.sections| == |c.sections|
    requires forall i :: 0 <= i < |c.sections| ==> d.sections[i].key == c.sections[i].key
    ensures forall i: nat :: IsLast(d, i) <==> IsLast(c, i)
    ensures forall j: nat, i: nat {:trigger Before(d, j, i)} :: Before(d, j, i) <==> Before(c, j, i)
  {
  }

  /** When a section may start, everything called before it on its key has ended. */
  lemma EarlierEnded(c: Chains, i: nat, j: nat)
    requires OrderSound(c) && Enabled(c, StartWork(i)) && Before(c, j, i)
    ensures Ended(c.sections[j])
  {
    if !Ended(c.sections[j]) {
      var previous := c.sections[i].previous.value;
      assert WaitsBehind(c, j, i);
      assert j < previous;
      // The predecessor has ended, so it is not waiting, so everything before it has ended.
      assert Before(c, j, previous);
    }
  }

  lemma StartKeepsOrder(c: Chains, i: nat)
    requires OrderSound(c) && Enabled(c, StartWork(i))
    ensures OrderSound(SetStatus(c, i, Running))
  {
    var d := SetStatus(c, i, Running);
    SameLasts(c, d);
    forall j: nat, m: nat | Before(d, j, m) ensures Ended(d.sections[j]) || WaitsBehind(d, j, m) {
      assert Before(c, j, m);
      if m == i {
        EarlierEnded(c, i, j);
      } else {
        assert Ended(c.sections[j]) || WaitsBehind(c, j, m);
      }
    }
  }

  lemma EndingKeepsOrder(c: Chains, d: Chains, i: nat, status: Status)
    requires OrderSound(c) && i < |c.sections| && !c.sections[i].status.Waiting?
    requires status.Settled? || status.Cleaned?
    requires d.sections == SetStatus(c, i, status).sections
    ensures OrderSound(d)
  {
    SameLasts(c, d);
    forall j: nat, m: nat | Before(d, j, m) ensures Ended(d.sections[j]) || WaitsBehind(d, j, m) {
      assert Before(c, j, m);
      assert Ended(c.sections[j]) || WaitsBehind(c, j, m);
    }
  }

  lemma PreviousKept(c: Chains, e: Event)
    requires TailsSound(c) && PreviousSound(c) && Enabled(c, e)
    ensures PreviousSound(Step(c, e))
  {
    var d := Step(c, e);
    if !e.Call? {
      SameLasts(c, d);
    }
    forall i: nat | i < |d.sections| && d.sections[i].previous.Some? ensures Before(d, d.sections[i].previous.value, i) {
      assert i < |c.sections| ==> Before(c, c.sections[i].previous.value, i);
    }
  }

  lemma TailsKept(c: Chains, e: Event)
    requires TailsSound(c) && Enabled(c, e) && !e.Call?
    ensures TailsSound(Step(c, e))
  {
    SameLasts(c, Step(c, e));
  }

  lemma StepKeepsInv(c: Chains, e: Event)
    requires Inv(c) && Enabled(c, e)
    ensures Inv(Step(c, e))
  {
    hide TailsSound, OrderSound, PreviousSound;
    PreviousKept(c, e);
    if !e.Call? {
      TailsKept(c, e);
    }
    match e
    case Call(key) => EnqueueTails(c, key); EnqueueOrder(c, key);
    case StartWork(i) => StartKeepsOrder(c, i);
    case Settle(i, _) => EndingKeepsOrder(c, Step(c, e), i, Settled);
    case Drop(i) => EndingKeepsOrder(c, Step(c, e), i, Cleaned);
  }

  // ---------------------------------------------------------------------------
  // What every run guarantees
  // ---------------------------------------------------------------------------

  ghost predicate CanRun(c: Chains, events: seq<Event>)
    decreases |events|
  {
    events == [] || (Enabled(c, events[0]) && CanRun(Step(c, events[0]), events[1..]))
  }

  ghost function Run(c: Chains, events: seq<Event>): Chains
    requires CanRun(c, events)
    decreases |events|
  {
    if events == [] then c else Run(Step(c, events[0]), events[1..])
  }

  lemma {:induction false} RunKeepsInv(c: Chains, events: seq<Event>)
    requires Inv(c) && CanRun(c, events)
    ensures Inv(Run(c, events))
    decreases |events|
  {
    if events != [] {
      StepKeepsInv(c, events[0]);
      RunKeepsInv(Step(c, events[0]), events[1..]);
    }
  }

  /** In every reachable state: once a section has started, all earlier calls on its key have
      ended, so sections run one at a time and in call order, however earlier ones ended. */
  lemma OneAtATimeInCallOrder(events: seq<Event>, i: nat, j: nat)
    requires CanRun(Chains([], map[]), events)
    requires Before(Run(Chains([], map[]), events), j, i)
    requires !Run(Chains([], map[]), events).sections[i].status.Waiting?
    ensures Ended(Run(Chains([], map[]), events).sections[j])
  {
    EmptyInv();
    RunKeepsInv(Chains([], map[]), events);
  }

  /** The chain entry of a key names its latest section as long as any section of the key has
      not ended, so a live tail is never dropped; once all are cleaned up the entry is gone. */
  lemma ChainFollowsWork(events: seq<Event>, i: nat)
    requires CanRun(Chains([], map[]), events) && i < |Run(Chains([], map[]), events).sections|
    ensures var c := Run(Chains([], map[]), events);
            var key := c.sections[i].key;
            && (!Ended(c.sections[i]) ==> key in c.tails && i <= c.tails[key] && IsLast(c, c.tails[key]))
            && ((forall m :: 0 <= m < |c.sections| && c.sections[m].key == key ==> c.sections[m].status.Cleaned?)
                ==> key !in c.tails)
            && (forall k :: k in c.tails ==> exists m: nat :: m < |c.sections| && c.sections[m].key == k
                                                              && !c.sections[m].status.Cleaned?)
  {
    EmptyInv();
    RunKeepsInv(Chains([], map[]), events);
    var c := Run(Chains([], map[]), events);
    if !Ended(c.sections[i]) {
      var last := LastExists(c, i);
      assert i < last ==> Before(c, i, last);
    }
  }

  /** The first section of a key that has not ended can always move on. */
  lemma FirstCanMove(c: Chains, i: nat)
    requires Inv(c) && i < |c.sections| && !Ended(c.sections[i])
    requires forall j: nat :: Before(c, j, i) ==> Ended(c.sections[j])
    ensures Enabled(c, StartWork(i)) || Enabled(c, Settle(i, true))
    ensures !Stuck(c, i)
  {
    assert c.sections[i].previous.Some? ==> Before(c, c.sections[i].previous.value, i);
  }

  lemma {:induction false} OldestUnfinished(c: Chains, i: nat) returns (first: nat)
    requires i < |c.sections| && !Ended(c.sections[i])
    ensures first < |c.sections| && !Ended(c.sections[first])
    ensures forall j: nat :: Before(c, j, first) ==> Ended(c.sections[j])
    decreases i
  {
    if j: nat :| Before(c, j, i) && !Ended(c.sections[j]) {
      first := OldestUnfinished(c, j);
    } else {
      first := i;
    }
  }

  /** No step of the section can happen. */
  predicate Stuck(c: Chains, i: nat) {
    !Enabled(c, StartWork(i)) && !Enabled(c, Settle(i, true)) && !Enabled(c, Settle(i, false)) && !Enabled(c, Drop(i))
  }

  /** Nothing can happen but another call. */
  ghost predicate Quiescent(c: Chains) {
    forall i: nat :: Stuck(c, i)
  }

  lemma QuietSectionIsCleaned(c: Chains, i: nat)
    requires Inv(c) && Quiescent(c) && i < |c.sections|
    ensures c.sections[i].status.Cleaned?
  {
    hide Inv, TailsSound, OrderSound;
    assert Stuck(c, i);
    if !Ended(c.sections[i]) {
      var first := OldestUnfinished(c, i);
      FirstCanMove(c, first);
    }
  }

  /** A reachable state in which nothing is left to happen has an empty chain map, and every section
      has run and been cleaned up: chains drain. */
  lemma ChainsDrain(events: seq<Event>)
    requires CanRun(Chains([], map[]), events) && Quiescent(Run(Chains([], map[]), events))
    ensures var c := Run(Chains([], map[]), events);
            && c.tails == map[]
            && forall i :: 0 <= i < |c.sections| ==> c.sections[i].status.Cleaned?
  {
    EmptyInv();
    RunKeepsInv(Chains([], map[]), events);
    var c := Run(Chains([], map[]), events);
    forall i: nat | i < |c.sections| ensures c.sections[i].status.Cleaned? {
      QuietSectionIsCleaned(c, i);
    }
    assert TailsSound(c) && c.tails.Keys == {};
  }

  function StepsLeft(status: Status): nat {
    match status
    case Waiting => 3
    case Running => 2
    case Settled => 1
    case Cleaned => 0
  }

  function AllStepsLeft(sections: seq<Section>): nat {
    if sections == [] then 0 else AllStepsLeft(sections[..|sections| - 1]) + StepsLeft(sections[|sections| - 1].status)
  }

  lemma {:induction false} StepsLeftUpdate(sections: seq<Section>, i: nat, status: Status)
    requires i < |sections|
    ensures AllStepsLeft(sections[i := sections[i].(status := status)])
         == AllStepsLeft(sections) - StepsLeft(sections[i].status) + StepsLeft(status)
  {
    var last := |sections| - 1;
    var updated := sections[i := sections[i].(status := status)];
    if i == last {
      assert updated[..last] == sections[..last];
    } else {
      assert updated[..last] == sections[..last][i := sections[..last][i].(status := status)];
      StepsLeftUpdate(sections[..last], i, status);
    }
  }

  lemma {:induction false} StepsLeftBound(sections: seq<Section>)
    ensures AllStepsLeft(sections) <= 3 * |sections|
  {
    if sections != [] {
      StepsLeftBound(sections[..|sections| - 1]);
    }
  }

  /** Without calls every step uses up one of the at most three steps of its section. */
  lemma {:induction false} RunUsesUpSteps(c: Chains, events: seq<Event>)
    requires CanRun(c, events) && forall e :: e in events ==> !e.Call?
    ensures |events| + AllStepsLeft(Run(c, events).sections) == AllStepsLeft(c.sections)
    decreases |events|
  {
    if events != [] {
      var e := events[0];
      assert e in events;
      var i := match e case StartWork(i) => i case Settle(i, _) => i case Drop(i) => i;
      StepsLeftUpdate(c.sections, i, Step(c, e).sections[i].status);
      RunUsesUpSteps(Step(c, e), events[1..]);
    }
  }

  /** Without further calls a run has at most three steps per section. */
  lemma DrainingEnds(c: Chains, events: seq<Event>)
    requires CanRun(c, events) && forall e :: e in events ==> !e.Call?
    ensures |events| <= 3 * |c.sections|
  {
    RunUsesUpSteps(c, events);
    StepsLeftBound(c.sections);
  }

  // ---------------------------------------------------------------------------
  // The chain map as the runtime keeps it
  // ---------------------------------------------------------------------------

  class WorkChains {
    var sections: seq<Section>
    var tails: map<Key, nat>

    ghost function View(): Chains
      reads this
    {
      Chains(sections, tails)
    }

    constructor ()
      ensures View() == Chains([], map[]) && Inv(View())
    {
      sections, tails := [], map[];
    }

    method RunExclusive(key: Key) returns (section: nat)
      requires Inv(View())
      modifies this
      ensures View() == Step(old(View()), Call(key)) && Inv(View())
      ensures section == |old(sections)|
    {
      StepKeepsInv(View(), Call(key));
      var previous := if key in tails then Some(tails[key]) else None;
      section := |sections|;
      sections := sections + [Section(key, previous, Waiting)];
      tails := tails[key := section];
    }

    method SettledFinally(section: nat)
      requires Inv(View()) && Enabled(View(), Drop(section))
      modifies this
      ensures View() == Step(old(View()), Drop(section)) && Inv(View())
    {
      StepKeepsInv(View(), Drop(section));
      var key := sections[section].key;
      if key in tails && tails[key] == section {
        tails := tails - {key};
      }
      sections := sections[section := sections[section].(status := Cleaned)];
    }
  }
}
