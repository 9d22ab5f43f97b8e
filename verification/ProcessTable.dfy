/** The native process table: spawn admission, retention of finished processes, the output limit
    of each process, and reading output by cursor. */
module ProcessTable {
  import opened Base
  import opened Sorting

  datatype Limits = Limits(maxActive: nat, maxOutput: nat, maxRetained: nat)

  // ---------------------------------------------------------------------------
  // Output of one process
  // ---------------------------------------------------------------------------

  datatype Channel = Stdout | Stderr

  datatype OutputEvent = OutputEvent(sequence: nat, channel: Channel, chunk: seq<int>)

  datatype Failure = OutputLimit | CallbackError | Other(code: string)

  datatype Output = Output(events: seq<OutputEvent>, sequence: nat, bytes: nat, failure: Option<Failure>)

  const NO_OUTPUT: Output := Output([], 0, 0, None)

  function Accepted(o: Output, chunk: seq<int>, maxOutput: nat): (data: seq<int>)
    ensures data <= chunk
  {
    var remaining := maxOutput - o.bytes;
    if remaining <= 0 then [] else if |chunk| > remaining then chunk[..remaining] else chunk
  }

  /** A chunk arrives: what still fits becomes one event and goes to the callback. */
  function Collect(o: Output, channel: Channel, chunk: seq<int>, retain: bool, callbackThrows: bool, maxOutput: nat): Output {
    if o.failure.Some? then o
    else
      var data := Accepted(o, chunk, maxOutput);
      var bytes := o.bytes + |chunk|;
      var failure := if bytes > maxOutput then Some(OutputLimit)
                     else if data != [] && callbackThrows then Some(CallbackError) else None;
      if data == [] then o.(bytes := bytes, failure := failure)
      else
        Output(if retain then o.events + [OutputEvent(o.sequence + 1, channel, data)] else o.events,
               o.sequence + 1, bytes, failure)
  }

  function Bytes(events: seq<OutputEvent>): seq<int> {
    if events == [] then [] else Bytes(events[..|events| - 1]) + events[|events| - 1].chunk
  }

  function After(cursor: nat): OutputEvent -> bool {
    (e: OutputEvent) => e.sequence > cursor
  }

  /** What a read from a cursor returns, with the next cursor. */
  function ReadOutput(o: Output, cursor: nat): (seq<OutputEvent>, nat) {
    (Filter(o.events, After(cursor)), o.sequence)
  }

  /** A process that retains its events, and a reader going from cursor to cursor. */
  datatype Session = Session(output: Output, received: seq<int>, cursor: nat, read: seq<OutputEvent>)

  datatype SessionEvent =
    | Chunk(channel: Channel, data: seq<int>, callbackThrows: bool)
    | Fails(failure: Failure)
    | Reads

  function SessionStep(s: Session, e: SessionEvent, maxOutput: nat): Session {
    match e
    case Chunk(channel, data, throws) =>
      s.(output := Collect(s.output, channel, data, true, throws, maxOutput), received := s.received + data)
    case Fails(failure) => s.(output := s.output.(failure := Some(failure)))
    case Reads =>
      var (events, next) := ReadOutput(s.output, s.cursor);
      s.(cursor := next, read := s.read + events)
  }

  function SessionRun(events: seq<SessionEvent>, maxOutput: nat): Session {
    if events == [] then Session(NO_OUTPUT, [], 0, [])
    else SessionStep(SessionRun(events[..|events| - 1], maxOutput), events[|events| - 1], maxOutput)
  }

  /** Events are numbered from one without gaps; their bytes are what was received, cut at the limit. */
  ghost predicate SessionInv(s: Session, maxOutput: nat) {
    var o := s.output;
    && |o.events| == o.sequence
    && (forall i :: 0 <= i < |o.events| ==> o.events[i].sequence == i + 1)
    && Bytes(o.events) <= s.received && |Bytes(o.events)| <= maxOutput
    && (o.failure.None? ==> Bytes(o.events) == s.received && o.bytes == |s.received|)
    && s.cursor <= o.sequence && s.read == o.events[..s.cursor]
  }

  lemma {:induction false} FilterAfter(events: seq<OutputEvent>, cursor: nat)
    requires forall i :: 0 <= i < |events| ==> events[i].sequence == i + 1
    ensures Filter(events, After(cursor)) == if cursor <= |events| then events[cursor..] else []
  {
    var k := if cursor <= |events| then cursor else |events|;
    assert events == events[..k] + events[k..];
    FilterConcat(events[..k], events[k..], After(cursor));
    FilterNone(events[..k], After(cursor));
    FilterAll(events[k..], After(cursor));
  }

  lemma BytesSnoc(events: seq<OutputEvent>, e: OutputEvent)
    ensures Bytes(events + [e]) == Bytes(events) + e.chunk
  {
    assert (events + [e])[..|events|] == events;
  }

  lemma CollectKeeps(s: Session, channel: Channel, data: seq<int>, throws: bool, maxOutput: nat)
    requires SessionInv(s, maxOutput)
    ensures SessionInv(SessionStep(s, Chunk(channel, data, throws), maxOutput), maxOutput)
  {
    hide Bytes;
    var o := s.output;
    var accepted := Accepted(o, data, maxOutput);
    var t := SessionStep(s, Chunk(channel, data, throws), maxOutput);
    BytesSnoc(o.events, OutputEvent(o.sequence + 1, channel, accepted));
    assert s.received <= t.received;
    assert o.failure.None? ==> s.received + accepted <= t.received;
    assert t.output.events[..s.cursor] == o.events[..s.cursor];
  }

  lemma {:induction false} SessionRunKeepsInv(events: seq<SessionEvent>, maxOutput: nat)
    ensures SessionInv(SessionRun(events, maxOutput), maxOutput)
  {
    if events != [] {
      var e, s := events[|events| - 1], SessionRun(events[..|events| - 1], maxOutput);
      SessionRunKeepsInv(events[..|events| - 1], maxOutput);
      hide SessionInv, SessionStep;
      match e
      case Chunk(channel, data, throws) => CollectKeeps(s, channel, data, throws, maxOutput);
      case Fails(failure) => FailKeeps(s, failure, maxOutput);
      case Reads => ReadKeeps(s, maxOutput);
    }
  }

  lemma FailKeeps(s: Session, failure: Failure, maxOutput: nat)
    requires SessionInv(s, maxOutput)
    ensures SessionInv(SessionStep(s, Fails(failure), maxOutput), maxOutput)
  {
  }

  lemma ReadKeeps(s: Session, maxOutput: nat)
    requires SessionInv(s, maxOutput)
    ensures SessionInv(SessionStep(s, Reads, maxOutput), maxOutput)
    ensures SessionStep(s, Reads, maxOutput).read == s.output.events
  {
    hide Bytes, Filter;
    var events := s.output.events;
    FilterAfter(events, s.cursor);
    assert events[..s.cursor] + events[s.cursor..] == events == events[..|events|];
  }

  /** However output, failures and reads interleave: the retained bytes are a prefix of the received
      ones within the limit, and all of them as long as nothing failed. */
  lemma RetainedIsPrefix(events: seq<SessionEvent>, maxOutput: nat)
    ensures var s := SessionRun(events, maxOutput);
            && Bytes(s.output.events) <= s.received && |Bytes(s.output.events)| <= maxOutput
            && (s.output.failure.None? ==> Bytes(s.output.events) == s.received)
  {
    SessionRunKeepsInv(events, maxOutput);
  }

  /** Reading from each returned cursor has, after every read, yielded each retained event exactly once. */
  lemma CursorsYieldEverythingOnce(events: seq<SessionEvent>, maxOutput: nat)
    ensures var s := SessionRun(events + [Reads], maxOutput); s.read == s.output.events
  {
    assert (events + [Reads])[..|events|] == events;
    SessionRunKeepsInv(events, maxOutput);
    ReadKeeps(SessionRun(events, maxOutput), maxOutput);
  }

  /** While nothing has failed a chunk adds to the retained bytes what is accepted of it. */
  lemma ChunkBytes(s: Session, channel: Channel, data: seq<int>, throws: bool, maxOutput: nat)
    requires SessionInv(s, maxOutput) && s.output.failure.None?
    ensures s.output.bytes == |s.received| <= maxOutput
    ensures Bytes(SessionStep(s, Chunk(channel, data, throws), maxOutput).output.events)
         == s.received + Accepted(s.output, data, maxOutput)
  {
    var o, t := s.output, SessionStep(s, Chunk(channel, data, throws), maxOutput);
    assert t.output.events != o.events ==> t.output.events[..|o.events|] == o.events;
  }

  lemma SessionRunSnoc(events: seq<SessionEvent>, e: SessionEvent, maxOutput: nat)
    ensures SessionRun(events + [e], maxOutput) == SessionStep(SessionRun(events, maxOutput), e, maxOutput)
  {
    assert (events + [e])[..|events|] == events;
  }

  /** The limit is exceeded exactly when the chunk does not fit, and then what is accepted fills it. */
  lemma ChunkAtLimit(o: Output, received: seq<int>, data: seq<int>, maxOutput: nat)
    requires o.bytes == |received| <= maxOutput
    ensures |received + data| > maxOutput ==> received + Accepted(o, data, maxOutput) == (received + data)[..maxOutput]
  {
  }

  lemma ChunkFailure(s: Session, channel: Channel, data: seq<int>, throws: bool, maxOutput: nat)
    requires s.output.failure.None? && s.output.bytes == |s.received|
    ensures var t := SessionStep(s, Chunk(channel, data, throws), maxOutput);
            t.received == s.received + data && (t.output.failure == Some(OutputLimit) <==> |t.received| > maxOutput)
  {
  }

  /** Collection fails for size exactly when more than the limit has been received; then exactly
      the limit has been retained, whatever the callback did. */
  lemma LimitReached(events: seq<SessionEvent>, channel: Channel, data: seq<int>, throws: bool, maxOutput: nat)
    requires SessionRun(events, maxOutput).output.failure.None?
    ensures var t := SessionRun(events + [Chunk(channel, data, throws)], maxOutput);
            && (t.output.failure == Some(OutputLimit) <==> |t.received| > maxOutput)
            && (t.output.failure == Some(OutputLimit) ==> Bytes(t.output.events) == t.received[..maxOutput])
  {
    hide SessionRun, Bytes, SessionInv, SessionStep, Accepted;
    var s := SessionRun(events, maxOutput);
    SessionRunSnoc(events, Chunk(channel, data, throws), maxOutput);
    SessionRunKeepsInv(events, maxOutput);
    ChunkBytes(s, channel, data, throws, maxOutput);
    ChunkFailure(s, channel, data, throws, maxOutput);
    ChunkAtLimit(s.output, s.received, data, maxOutput);
  }

  function BytesOn(events: seq<OutputEvent>, channel: Channel): seq<int> {
    if events == [] then []
    else
      var before, last := BytesOn(events[..|events| - 1], channel), events[|events| - 1];
      if last.channel == channel then before + last.chunk else before
  }

  /** The bytes the process wrote to one channel. */
  function ReceivedOn(events: seq<SessionEvent>, channel: Channel): seq<int> {
    if events == [] then []
    else
      var before, last := ReceivedOn(events[..|events| - 1], channel), events[|events| - 1];
      if last.Chunk? && last.channel == channel then before + last.data else before
  }

  /** The channels are kept apart: what is retained of each is a prefix of what the process wrote to it,
      and all of it as long as nothing failed. */
  lemma {:induction false} ChannelsKeptApart(events: seq<SessionEvent>, maxOutput: nat, channel: Channel)
    ensures var o := SessionRun(events, maxOutput).output;
            && BytesOn(o.events, channel) <= ReceivedOn(events, channel)
            && (o.failure.None? ==> BytesOn(o.events, channel) == ReceivedOn(events, channel))
  {
    if events != [] {
      var earlier, last := events[..|events| - 1], events[|events| - 1];
      ChannelsKeptApart(earlier, maxOutput, channel);
      if last.Chunk? {
        var o, t := SessionRun(earlier, maxOutput).output, SessionRun(events, maxOutput).output;
        assert t.events != o.events ==> t.events[..|t.events| - 1] == o.events;
      }
    }
  }

  // ---------------------------------------------------------------------------
  // The table
  // ---------------------------------------------------------------------------

  datatype Record = Record(pid: nat, exited: bool, retain: bool, output: Output)

  /** `preparing` are spawns without a record yet; `starting` the records whose spawn is still in
      flight. Records are in the order they were started. */
  datatype Table = Table(records: seq<Record>, preparing: nat, starting: set<nat>, next: nat, closed: bool)

  const EMPTY: Table := Table([], 0, {}, 1, false)

  function Exited(records: seq<Record>): nat {
    if records == [] then 0 else (if records[0].exited then 1 else 0) + Exited(records[1..])
  }

  function Running(records: seq<Record>): nat {
    if records == [] then 0 else (if records[0].exited then 0 else 1) + Running(records[1..])
  }

  /** The admission test: spawns in flight and running records together. */
  predicate Admits(t: Table, limits: Limits) {
    !t.closed && t.preparing + |t.starting| + Running(t.records) < limits.maxActive
  }

  function DropExited(records: seq<Record>, excess: nat): seq<Record> {
    if records == [] || excess == 0 then records
    else if records[0].exited then DropExited(records[1..], excess - 1)
    else [records[0]] + DropExited(records[1..], excess)
  }

  /** Drops the first finished records beyond the retention limit. */
  function Trim(records: seq<Record>, maxRetained: nat): seq<Record> {
    DropExited(records, if Exited(records) > maxRetained then Exited(records) - maxRetained else 0)
  }

  function Marked(records: seq<Record>, i: nat): seq<Record>
    requires i < |records|
  {
    records[i := records[i].(exited := true)]
  }

  datatype Event =
    | Admit
    | PrepareFails
    | Register(retain: bool)
    | Started(pid: nat)
    | Finish(i: nat)
    | Receive(i: nat, channel: Channel, data: seq<int>, callbackThrows: bool)
    | Close
    | Clear

  predicate Enabled(t: Table, e: Event) {
    match e
    case PrepareFails => t.preparing > 0
    case Register(_) => t.preparing > 0
    case Started(pid) => pid in t.starting
    case Finish(i) => i < |t.records|
    case Receive(i, _, _, _) => i < |t.records|
    case Clear => t.closed && t.preparing == 0 && t.starting == {}
    case _ => true
  }

  function Step(t: Table, e: Event, limits: Limits): Table
    requires Enabled(t, e)
  {
    match e
    case Admit => if Admits(t, limits) then t.(preparing := t.preparing + 1) else t
    case PrepareFails => t.(preparing := t.preparing - 1)
    case Register(retain) =>
      t.(preparing := t.preparing - 1, starting := t.starting + {t.next}, next := t.next + 1,
         records := t.records + [Record(t.next, false, retain, NO_OUTPUT)])
    case Started(pid) => t.(starting := t.starting - {pid})
    case Finish(i) =>
      if t.records[i].exited then t else t.(records := Trim(Marked(t.records, i), limits.maxRetained))
    case Receive(i, channel, data, throws) =>
      var r := t.records[i];
      t.(records := t.records[i := r.(output := Collect(r.output, channel, data, r.retain, throws, limits.maxOutput))])
    case Close => t.(closed := true)
    case Clear => t.(records := [])
  }

  predicate CanRun(t: Table, events: seq<Event>, limits: Limits)
    decreases |events|
  {
    events == [] || (Enabled(t, events[0]) && CanRun(Step(t, events[0], limits), events[1..], limits))
  }

  function Run(t: Table, events: seq<Event>, limits: Limits): Table
    requires CanRun(t, events, limits)
    decreases |events|
  {
    if events == [] then t else Run(Step(t, events[0], limits), events[1..], limits)
  }

  ghost predicate InStartOrder(records: seq<Record>) {
    forall i, j :: 0 <= i < j < |records| ==> records[i].pid < records[j].pid
  }

  function RunningPids(records: seq<Record>): set<nat> {
    set r | r in records && !r.exited :: r.pid
  }

  /** The processes that are running and those whose spawn is in flight. */
  function Active(t: Table): set<nat> {
    RunningPids(t.records) + t.starting
  }

  /** The running records whose spawn is still in flight. */
  function StillStarting(t: Table): set<nat> {
    RunningPids(t.records) * t.starting
  }

  ghost predicate Inv(t: Table, limits: Limits) {
    && t.preparing + |Active(t)| <= limits.maxActive
    && (forall pid :: pid in t.starting ==> pid < t.next)
    && Exited(t.records) <= limits.maxRetained
    && InStartOrder(t.records)
    && (forall r :: r in t.records ==> r.pid < t.next)
  }

  lemma {:induction false} CountsUpdate(records: seq<Record>, i: nat, r: Record)
    requires i < |records|
    ensures Running(records[i := r]) == Running(records) - (if records[i].exited then 0 else 1) + (if r.exited then 0 else 1)
    ensures Exited(records[i := r]) == Exited(records) - (if records[i].exited then 1 else 0) + (if r.exited then 1 else 0)
  {
    if i > 0 {
      assert records[i := r][1..] == records[1..][i - 1 := r];
      CountsUpdate(records[1..], i - 1, r);
    } else {
      assert records[i := r][1..] == records[1..];
    }
  }

  lemma {:induction false} CountsConcat(a: seq<Record>, b: seq<Record>)
    ensures Running(a + b) == Running(a) + Running(b)
    ensures Exited(a + b) == Exited(a) + Exited(b)
  {
    if a == [] {
      assert a + b == b;
    } else {
      assert (a + b)[1..] == a[1..] + b;
      CountsConcat(a[1..], b);
    }
  }

  lemma {:induction false} DropCounts(records: seq<Record>, excess: nat)
    requires excess <= Exited(records)
    ensures Running(DropExited(records, excess)) == Running(records)
    ensures Exited(DropExited(records, excess)) == Exited(records) - excess
  {
    if records != [] && excess > 0 {
      if records[0].exited {
        DropCounts(records[1..], excess - 1);
      } else {
        DropCounts(records[1..], excess);
        var rest := DropExited(records[1..], excess);
        assert ([records[0]] + rest)[1..] == rest;
      }
    }
  }

  lemma {:induction false} DropIsSubset(records: seq<Record>, excess: nat)
    ensures forall r :: r in DropExited(records, excess) ==> r in records
    ensures InStartOrder(records) ==> InStartOrder(DropExited(records, excess))
  {
    if records != [] && excess > 0 {
      DropIsSubset(records[1..], if records[0].exited then excess - 1 else excess);
      var rest := DropExited(records[1..], if records[0].exited then excess - 1 else excess);
      if InStartOrder(records) {
        assert InStartOrder(records[1..]);
        forall r | r in rest ensures records[0].pid < r.pid {
          var k :| 0 <= k < |records[1..]| && records[1..][k] == r;
        }
      }
    }
  }

  /** A record is dropped exactly when it is finished and fewer than `excess` finished ones precede it. */
  lemma {:induction false} DroppedExactly(records: seq<Record>, excess: nat, i: nat)
    requires InStartOrder(records) && i < |records|
    ensures records[i] in DropExited(records, excess) <==> !records[i].exited || Exited(records[..i]) >= excess
  {
    if excess > 0 {
      var next := if records[0].exited then excess - 1 else excess;
      var rest := DropExited(records[1..], next);
      DropIsSubset(records[1..], next);
      assert InStartOrder(records[1..]);
      if i == 0 {
        assert forall r :: r in records[1..] ==> r.pid > records[0].pid;
        assert records[..0] == [];
      } else {
        DroppedExactly(records[1..], next, i - 1);
        assert records[..i][1..] == records[1..][..i - 1];
        assert records[1..][i - 1] == records[i];
        assert records[i] != records[0];
      }
    }
  }

  /** Retention keeps every running process, and of the finished ones exactly the `maxRetained`
      that were started last. */
  lemma RetentionKeepsNewest(records: seq<Record>, maxRetained: nat, i: nat)
    requires InStartOrder(records) && i < |records|
    ensures records[i] in Trim(records, maxRetained) <==> !records[i].exited || Exited(records[i + 1..]) < maxRetained
  {
    DroppedExactly(records, if Exited(records) > maxRetained then Exited(records) - maxRetained else 0, i);
    CountsConcat(records[..i], records[i..]);
    assert records == records[..i] + records[i..];
    assert records[i..][1..] == records[i + 1..];
  }

  /** A process that finishes is itself forgotten at once exactly when `maxRetained` finished
      processes were started after it. */
  lemma FinishingMayForgetItself(t: Table, i: nat, limits: Limits)
    requires Inv(t, limits) && i < |t.records| && !t.records[i].exited
    ensures t.records[i].(exited := true) in Step(t, Finish(i), limits).records
       <==> Exited(t.records[i + 1..]) < limits.maxRetained
  {
    var marked := Marked(t.records, i);
    assert InStartOrder(marked);
    RetentionKeepsNewest(marked, limits.maxRetained, i);
    assert marked[i + 1..] == t.records[i + 1..];
  }

  lemma {:induction false} RunningPidsCount(records: seq<Record>)
    requires InStartOrder(records)
    ensures |RunningPids(records)| == Running(records)
  {
    if records != [] {
      var first, rest := records[0], records[1..];
      assert InStartOrder(rest);
      RunningPidsCount(rest);
      assert first.pid !in RunningPids(rest);
      assert RunningPids(records) == RunningPids(rest) + if first.exited then {} else {first.pid};
    }
  }

  /** Distinct processes are never more than the active ones. */
  lemma DistinctWithinActive(t: Table)
    requires InStartOrder(t.records)
    ensures Running(t.records) <= |Active(t)|
  {
    RunningPidsCount(t.records);
    SubsetSize(RunningPids(t.records), Active(t));
  }

  lemma AdmitKeepsInv(t: Table, limits: Limits)
    requires Inv(t, limits)
    ensures Inv(Step(t, Admit, limits), limits)
  {
    hide Running, Exited;
    TestedSum(t);
    var u := Step(t, Admit, limits);
    assert Active(u) == Active(t);
  }

  /** The tested sum counts the records still starting twice. */
  lemma TestedSum(t: Table)
    requires InStartOrder(t.records)
    ensures t.preparing + |t.starting| + Running(t.records) == t.preparing + |Active(t)| + |StillStarting(t)|
  {
    RunningPidsCount(t.records);
  }

  lemma RegisterActivates(t: Table, retain: bool, limits: Limits)
    requires t.preparing > 0
    ensures Active(Step(t, Register(retain), limits)) == Active(t) + {t.next}
  {
    var r := Record(t.next, false, retain, NO_OUTPUT);
    assert forall x :: x in t.records + [r] <==> x in t.records || x == r;
  }

  lemma AppendedInOrder(records: seq<Record>, r: Record)
    requires InStartOrder(records) && forall x :: x in records ==> x.pid < r.pid
    ensures InStartOrder(records + [r])
    ensures forall x :: x in records + [r] ==> x.pid < r.pid + 1
  {
    forall i | 0 <= i < |records| ensures records[i].pid < r.pid {
      assert records[i] in records;
    }
  }

  lemma RegisterKeepsInv(t: Table, retain: bool, limits: Limits)
    requires Inv(t, limits) && t.preparing > 0
    ensures Inv(Step(t, Register(retain), limits), limits)
  {
    hide Running, Exited, Active, InStartOrder, Collect, Trim, Marked;
    var r := Record(t.next, false, retain, NO_OUTPUT);
    CountsConcat(t.records, [r]);
    OneRecord(r);
    RegisterActivates(t, retain, limits);
    AppendedInOrder(t.records, r);
  }

  lemma RegisterStep(t: Table, retain: bool, limits: Limits)
    requires t.preparing > 0
    ensures Step(t, Register(retain), limits) ==
            Table(t.records + [Record(t.next, false, retain, NO_OUTPUT)], t.preparing - 1, t.starting + {t.next}, t.next + 1, t.closed)
  {
  }

  lemma OneRecord(r: Record)
    ensures Exited([r]) == if r.exited then 1 else 0
  {
  }

  lemma FinishKeepsInv(t: Table, i: nat, limits: Limits)
    requires Inv(t, limits) && i < |t.records| && !t.records[i].exited
    ensures Inv(Step(t, Finish(i), limits), limits)
  {
    hide Exited, Running, DropExited;
    var marked := Marked(t.records, i);
    CountsUpdate(t.records, i, t.records[i].(exited := true));
    var excess := if Exited(marked) > limits.maxRetained then Exited(marked) - limits.maxRetained else 0;
    DropCounts(marked, excess);
    DropIsSubset(marked, excess);
    assert InStartOrder(marked);
    forall r | r in marked ensures r.pid < t.next && (r.exited || r in t.records) {
      var k :| 0 <= k < |marked| && marked[k] == r;
      assert t.records[k] in t.records;
    }
    SubsetSize(Active(Step(t, Finish(i), limits)), Active(t));
  }

  lemma SameRunningPids(records: seq<Record>, i: nat, r: Record)
    requires i < |records| && r.pid == records[i].pid && r.exited == records[i].exited
    ensures RunningPids(records[i := r]) <= RunningPids(records)
  {
    var changed := records[i := r];
    forall pid | pid in RunningPids(changed) ensures pid in RunningPids(records) {
      var x :| x in changed && !x.exited && x.pid == pid;
      var k :| 0 <= k < |changed| && changed[k] == x;
      assert records[k] in records && !records[k].exited;
    }
  }

  lemma PidsKept(records: seq<Record>, i: nat, r: Record, next: nat)
    requires i < |records| && r.pid == records[i].pid && InStartOrder(records)
    requires forall x :: x in records ==> x.pid < next
    ensures InStartOrder(records[i := r]) && forall x :: x in records[i := r] ==> x.pid < next
  {
    var changed := records[i := r];
    forall x | x in changed ensures x.pid < next {
      var k :| 0 <= k < |changed| && changed[k] == x;
      assert records[k] in records;
    }
  }

  lemma OutputKeepsInv(t: Table, i: nat, r: Record, limits: Limits)
    requires Inv(t, limits) && i < |t.records| && r.pid == t.records[i].pid && r.exited == t.records[i].exited
    ensures Inv(t.(records := t.records[i := r]), limits)
  {
    CountsUpdate(t.records, i, r);
    SameRunningPids(t.records, i, r);
    PidsKept(t.records, i, r, t.next);
    hide Exited, Running, RunningPids, InStartOrder;
    SubsetSize(Active(t.(records := t.records[i := r])), Active(t));
  }

  lemma StartedKeepsInv(t: Table, pid: nat, limits: Limits)
    requires Inv(t, limits)
    ensures Inv(t.(starting := t.starting - {pid}), limits)
  {
    SubsetSize(Active(t.(starting := t.starting - {pid})), Active(t));
  }

  lemma ClearKeepsInv(t: Table, limits: Limits)
    requires Inv(t, limits)
    ensures Inv(t.(records := []), limits)
  {
    SubsetSize(Active(t.(records := [])), Active(t));
  }

  lemma StepKeepsInv(t: Table, e: Event, limits: Limits)
    requires Inv(t, limits) && Enabled(t, e)
    ensures Inv(Step(t, e, limits), limits)
  {
    match e
    case Admit => hide Inv; AdmitKeepsInv(t, limits);
    case Register(retain) => hide Inv; RegisterKeepsInv(t, retain, limits);
    case Finish(i) =>
      if !t.records[i].exited {
        hide Inv;
        FinishKeepsInv(t, i, limits);
      }
    case Receive(i, channel, data, throws) =>
      hide Inv, Collect;
      var r := t.records[i];
      OutputKeepsInv(t, i, r.(output := Collect(r.output, channel, data, r.retain, throws, limits.maxOutput)), limits);
    case Started(pid) => hide Inv; StartedKeepsInv(t, pid, limits);
    case Clear => hide Inv; ClearKeepsInv(t, limits);
    case PrepareFails => assert Active(Step(t, e, limits)) == Active(t);
    case Close => assert Active(Step(t, e, limits)) == Active(t);
  }

  lemma {:induction false} RunKeepsInv(t: Table, events: seq<Event>, limits: Limits)
    requires Inv(t, limits) && CanRun(t, events, limits)
    ensures Inv(Run(t, events, limits), limits)
    decreases |events|
  {
    if events != [] {
      StepKeepsInv(t, events[0], limits);
      RunKeepsInv(Step(t, events[0], limits), events[1..], limits);
    }
  }

  /** Over every run: preparing, in-flight and running processes together, each counted once, never
      exceed the managed limit, and finished records never exceed the retention limit. */
  lemma LimitsHold(events: seq<Event>, limits: Limits)
    requires CanRun(EMPTY, events, limits)
    ensures var t := Run(EMPTY, events, limits);
            && t.preparing + Running(t.records) <= t.preparing + |Active(t)| <= limits.maxActive
            && Exited(t.records) <= limits.maxRetained
  {
    RunKeepsInv(EMPTY, events, limits);
    DistinctWithinActive(Run(EMPTY, events, limits));
  }

  /** In every reachable table an open backend refuses a spawn although fewer distinct processes
      than the limit are preparing, in flight or running, exactly when the records still starting
      make up the difference. */
  lemma EarlyRefusalExactly(events: seq<Event>, limits: Limits)
    requires CanRun(EMPTY, events, limits) && !Run(EMPTY, events, limits).closed
    ensures var t := Run(EMPTY, events, limits);
            var distinct := t.preparing + |Active(t)|;
            !Admits(t, limits) && distinct < limits.maxActive
            <==> distinct < limits.maxActive <= distinct + |StillStarting(t)|
  {
    RunKeepsInv(EMPTY, events, limits);
    TestedSum(Run(EMPTY, events, limits));
  }

  /** No refusal is early while no registered process is still starting: then an open backend
      refuses exactly when the limit is reached. */
  lemma NoEarlyRefusalWhenStarted(events: seq<Event>, limits: Limits)
    requires CanRun(EMPTY, events, limits) && !Run(EMPTY, events, limits).closed
    requires StillStarting(Run(EMPTY, events, limits)) == {}
    ensures var t := Run(EMPTY, events, limits);
            !Admits(t, limits) <==> t.preparing + |Active(t)| == limits.maxActive
  {
    RunKeepsInv(EMPTY, events, limits);
    TestedSum(Run(EMPTY, events, limits));
  }

  /** With a limit of two, a second spawn is refused while the first, the only process, is starting. */
  lemma SpawnRefusedEarly()
    ensures var limits, events := Limits(2, 1, 1), [Admit] + ([Register(true)] + []);
            && CanRun(EMPTY, events, limits)
            && var t := Run(EMPTY, events, limits);
               && !t.closed && !Admits(t, limits)
               && t.preparing + Running(t.records) == 1 && t.preparing + |Active(t)| == 1
  {
    var limits := Limits(2, 1, 1);
    var t1 := Step(EMPTY, Admit, limits);
    assert t1.preparing == 1;
    var t2 := Step(t1, Register(true), limits);
    assert t2.starting == {1} && |t2.starting| == 1 && Running(t2.records) == 1;
    assert Active(t2) == {1};
    var rest := [Register(true)] + [];
    assert rest[1..] == [] && ([Admit] + rest)[1..] == rest;
    assert CanRun(t2, [], limits) && Run(t2, [], limits) == t2;
    assert CanRun(t1, rest, limits) && Run(t1, rest, limits) == t2;
  }

  // ---------------------------------------------------------------------------
  // The backend object
  // ---------------------------------------------------------------------------

  class NativeProcesses {
    const limits: Limits
    var records: seq<Record>
    var preparing: nat
    var starting: set<nat>
    var next: nat
    var closed: bool

    ghost function View(): Table
      reads this
    {
      Table(records, preparing, starting, next, closed)
    }

    constructor (limits: Limits)
      ensures View() == EMPTY && this.limits == limits && Inv(View(), limits)
    {
      this.limits := limits;
      records, preparing, starting, next, closed := [], 0, {}, 1, false;
    }

    method AdmitSpawn() returns (admitted: bool)
      requires Inv(View(), limits)
      modifies this
      ensures View() == Step(old(View()), Admit, limits) && Inv(View(), limits)
      ensures admitted == Admits(old(View()), limits)
      ensures admitted <==> !old(closed) && old(preparing) + |old(starting)| + |RunningPids(old(records))| < limits.maxActive
      ensures preparing == old(preparing) + (if admitted then 1 else 0) && records == old(records) && starting == old(starting)
    {
      RunningPidsCount(records);
      StepKeepsInv(View(), Admit, limits);
      hide Inv;
      var running := CountRunning();
      admitted := !closed && preparing + |starting| + running < limits.maxActive;
      if admitted {
        preparing := preparing + 1;
      }
    }

    method RegisterSpawn(retain: bool) returns (pid: nat)
      requires Inv(View(), limits) && preparing > 0
      modifies this
      ensures View() == Step(old(View()), Register(retain), limits) && Inv(View(), limits)
      ensures pid == old(next) && next == pid + 1
      ensures preparing == old(preparing) - 1 && starting == old(starting) + {pid}
      ensures records == old(records) + [Record(pid, false, retain, Output([], 0, 0, None))]
    {
      StepKeepsInv(View(), Register(retain), limits);
      RegisterStep(View(), retain, limits);
      hide Inv, Step;
      pid := next;
      next := next + 1;
      preparing, starting := preparing - 1, starting + {pid};
      records := records + [Record(pid, false, retain, NO_OUTPUT)];
    }

    method FinishProcess(i: nat)
      requires Inv(View(), limits) && i < |records|
      modifies this
      ensures View() == Step(old(View()), Finish(i), limits) && Inv(View(), limits)
    {
      StepKeepsInv(View(), Finish(i), limits);
      if records[i].exited {
        return;
      }
      MarkAndTrim(i);
    }

    /** Marks the record and deletes the first finished ones beyond the retention limit. */
    method MarkAndTrim(i: nat)
      requires i < |records|
      modifies this`records
      ensures records == Trim(Marked(old(records), i), limits.maxRetained)
    {
      records := records[i := records[i].(exited := true)];
      var finished := CountExited();
      DropOldest(if finished > limits.maxRetained then finished - limits.maxRetained else 0);
    }

    method CountRunning() returns (n: nat)
      ensures n == Running(records)
    {
      n := 0;
      for i := 0 to |records|
        invariant n == Running(records[..i])
      {
        CountsConcat(records[..i], [records[i]]);
        assert records[..i + 1] == records[..i] + [records[i]];
        if !records[i].exited {
          n := n + 1;
        }
      }
      assert records[..|records|] == records;
    }

    method CountExited() returns (n: nat)
      ensures n == Exited(records)
    {
      n := 0;
      for i := 0 to |records|
        invariant n == Exited(records[..i])
      {
        CountsConcat(records[..i], [records[i]]);
        assert records[..i + 1] == records[..i] + [records[i]];
        if records[i].exited {
          n := n + 1;
        }
      }
      assert records[..|records|] == records;
    }

    /** Deletes the first finished records, in start order. */
    method DropOldest(excess: nat)
      requires excess <= Exited(records)
      modifies this`records
      ensures records == DropExited(old(records), excess)
    {
      hide DropExited, Exited;
      var left: nat, i: nat := excess, 0;
      assert records[0..] == records && records[..0] == [];
      while left > 0
        invariant i <= |records| && left <= Exited(records[i..])
        invariant records[..i] + DropExited(records[i..], left) == DropExited(old(records), excess)
        decreases |records| - i
      {
        DropNext(records, i, left);
        if records[i].exited {
          var kept, rest := records[..i], records[i + 1..];
          records := kept + rest;
          assert records[..i] == kept && records[i..] == rest;
          left := left - 1;
        } else {
          i := i + 1;
        }
      }
      DropNothing(records[i..]);
      assert records == records[..i] + records[i..];
    }

    method CollectOutput(i: nat, channel: Channel, chunk: seq<int>, callbackThrows: bool)
      requires Inv(View(), limits) && i < |records|
      modifies this
      ensures View() == Step(old(View()), Receive(i, channel, chunk, callbackThrows), limits) && Inv(View(), limits)
    {
      StepKeepsInv(View(), Receive(i, channel, chunk, callbackThrows), limits);
      hide Inv, Collect;
      var r := records[i];
      var o := CollectChunk(r.output, channel, chunk, r.retain, callbackThrows, limits.maxOutput);
      records := records[i := r.(output := o)];
    }
  }

  /** Looking at the next record while some are still to be dropped. */
  lemma DropNext(records: seq<Record>, i: nat, left: nat)
    requires i <= |records| && 0 < left <= Exited(records[i..])
    ensures i < |records|
    ensures var rest := records[i + 1..];
            if records[i].exited then
              left - 1 <= Exited(rest) && records[..i] + DropExited(records[i..], left) == records[..i] + DropExited(rest, left - 1)
            else
              left <= Exited(rest) && records[..i] + DropExited(records[i..], left) == records[..i + 1] + DropExited(rest, left)
  {
    assert records[i..] != [];
    var rest := records[i + 1..];
    assert records[i..][1..] == rest;
    if !records[i].exited {
      assert records[..i + 1] == records[..i] + [records[i]];
      assert DropExited(records[i..], left) == [records[i]] + DropExited(rest, left);
      assert records[..i] + ([records[i]] + DropExited(rest, left)) == records[..i] + [records[i]] + DropExited(rest, left);
    }
  }

  lemma DropNothing(records: seq<Record>)
    ensures DropExited(records, 0) == records
  {
  }

  /** The collector's steps on one record. */
  method CollectChunk(output: Output, channel: Channel, chunk: seq<int>, retain: bool, callbackThrows: bool, maxOutput: nat)
    returns (o: Output)
    ensures o == Collect(output, channel, chunk, retain, callbackThrows, maxOutput)
    ensures output.failure.Some? ==> o == output
    ensures output.failure.None? ==>
              var room := if output.bytes < maxOutput then maxOutput - output.bytes else 0;
              var data := if |chunk| <= room then chunk else chunk[..room];
              && o.bytes == output.bytes + |chunk|
              && o.sequence == output.sequence + (if data == [] then 0 else 1)
              && o.events == (if retain && data != [] then output.events + [OutputEvent(o.sequence, channel, data)] else output.events)
              && (o.failure == Some(OutputLimit) <==> output.bytes + |chunk| > maxOutput)
              && (o.failure == Some(CallbackError) <==> output.bytes + |chunk| <= maxOutput && data != [] && callbackThrows)
              && (o.failure == None || o.failure == Some(OutputLimit) || o.failure == Some(CallbackError))
  {
    o := output;
    if o.failure.Some? {
      return;
    }
    var data := Accepted(o, chunk, maxOutput);
    o := o.(bytes := o.bytes + |chunk|);
    if data != [] {
      o := o.(sequence := o.sequence + 1);
      if retain {
        o := o.(events := o.events + [OutputEvent(o.sequence, channel, data)]);
      }
      if callbackThrows {
        o := o.(failure := Some(CallbackError));
      }
    }
    if o.bytes > maxOutput {
      o := o.(failure := Some(OutputLimit));
    }
  }
}
