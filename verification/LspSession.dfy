/** One LSP session: request ids, the pending registry, and what a chunk of stdout settles. */
module LspSession {
  import opened Base
  import opened LspFraming

  /** A decoded message; anything without a numeric id settles nothing. */
  datatype Message = Response(id: int, isError: bool, content: string) | Unmatched

  datatype Reason =
    | FramingFailure(error: FramingError)
    | ProcessFailure(text: string)
    | RequestAborted
    | RequestTimedOut
    | WriteFailed
    | SessionDisposed

  datatype Settlement = Resolved(content: string) | ErrorReply(content: string) | Rejected(reason: Reason)

  /** `settled` is the outcome of each request promise, fixed by its first settlement. */
  datatype State = State(
    buffer: seq<byte>,
    requestId: nat,
    pending: set<int>,
    settled: map<int, Settlement>,
    failure: Option<Reason>)

  const FRESH: State := State([], 0, {}, map[], None)

  function Settle(settled: map<int, Settlement>, id: int, s: Settlement): map<int, Settlement> {
    if id in settled then settled else settled[id := s]
  }

  /** Takes the request out of the registry and settles it, if it is there. */
  function Take(s: State, id: int, outcome: Settlement): State {
    if id in s.pending then s.(pending := s.pending - {id}, settled := Settle(s.settled, id, outcome)) else s
  }

  function Dispatch(s: State, m: Message): State {
    match m
    case Unmatched => s
    case Response(id, isError, content) => Take(s, id, if isError then ErrorReply(content) else Resolved(content))
  }

  function DispatchAll(s: State, messages: seq<Message>): State {
    if messages == [] then s else Dispatch(DispatchAll(s, messages[..|messages| - 1]), messages[|messages| - 1])
  }

  function RejectAll(s: State, reason: Reason): State {
    s.(pending := {},
       settled := (map id | id in s.pending :: Rejected(reason)) + s.settled)
  }

  function Remember(s: State, reason: Reason): State {
    if s.failure.None? then s.(failure := Some(reason)) else s
  }

  /** The first failure sticks, and everything pending is rejected with it. */
  function Fail(s: State, reason: Reason): State {
    var remembered := Remember(s, reason);
    RejectAll(remembered, remembered.failure.value)
  }

  function OnData(s: State, chunk: seq<byte>, decode: seq<byte> -> Decoded<Message>): State {
    match Parse(s.buffer + chunk, decode)
    case Parsed(messages, remaining) => DispatchAll(s.(buffer := remaining), messages)
    case Failed(messages, error) => Fail(DispatchAll(s.(buffer := []), messages), FramingFailure(error))
  }

  /** A request that passed the failure and abort tests. A synchronous write error rejects
      the promise but leaves the registry entry to its timeout. */
  function Send(s: State, writeFails: bool): State {
    var id := s.requestId + 1;
    s.(requestId := id, pending := s.pending + {id},
       settled := if writeFails then Settle(s.settled, id, Rejected(WriteFailed)) else s.settled)
  }

  datatype Event =
    | SendRequest(alreadyAborted: bool, writeFails: bool)
    | Data(chunk: seq<byte>)
    | Abort(id: int)
    | Timeout(id: int)
    | ProcessExited(text: string)
    | StreamFailed(text: string)
    | Dispose

  function Step(s: State, e: Event, decode: seq<byte> -> Decoded<Message>): State {
    match e
    case SendRequest(alreadyAborted, writeFails) =>
      if s.failure.Some? || alreadyAborted then s else Send(s, writeFails)
    case Data(chunk) => OnData(s, chunk, decode)
    case Abort(id) => Take(s, id, Rejected(RequestAborted))
    case Timeout(id) => Take(s, id, Rejected(RequestTimedOut))
    case ProcessExited(text) => Remember(s, ProcessFailure(text))
    case StreamFailed(text) => Fail(s, ProcessFailure(text))
    case Dispose => RejectAll(s, SessionDisposed)
  }

  function Run(s: State, events: seq<Event>, decode: seq<byte> -> Decoded<Message>): State {
    if events == [] then s else Step(Run(s, events[..|events| - 1], decode), events[|events| - 1], decode)
  }

  // ---------------------------------------------------------------------------
  // Requests are never lost and never settled twice
  // ---------------------------------------------------------------------------

  /** Exactly the issued requests are known, each pending or settled. */
  ghost predicate Accounted(s: State) {
    forall id: int :: id in s.pending || id in s.settled <==> 1 <= id <= s.requestId
  }

  /** `t` is reachable from `s`: outcomes and the first failure are final, and a failed
      session issues nothing. */
  ghost predicate Extends(s: State, t: State) {
    && (forall id :: id in s.settled ==> id in t.settled && t.settled[id] == s.settled[id])
    && (s.failure.Some? ==> t.failure == s.failure && t.requestId == s.requestId)
    && s.requestId <= t.requestId
    && (forall id :: id in t.pending && id <= s.requestId ==> id in s.pending)
  }

  lemma {:induction false} DispatchAllKeeps(s: State, messages: seq<Message>)
    requires Accounted(s)
    ensures var t := DispatchAll(s, messages);
            Accounted(t) && Extends(s, t) && t.buffer == s.buffer && t.failure == s.failure && t.requestId == s.requestId
  {
    if messages != [] {
      DispatchAllKeeps(s, messages[..|messages| - 1]);
    }
  }

  lemma StepKeeps(s: State, e: Event, decode: seq<byte> -> Decoded<Message>)
    requires Accounted(s)
    ensures Accounted(Step(s, e, decode)) && Extends(s, Step(s, e, decode))
  {
    hide Parse;
    if e.Data? {
      var p := Parse(s.buffer + e.chunk, decode);
      DispatchAllKeeps(s.(buffer := if p.Parsed? then p.remaining else []), p.messages);
    }
  }

  /** Over every run: each issued request is pending or settled, an outcome once given never
      changes, a taken request never returns, and the first failure stops all issuing. */
  lemma {:induction false} RunKeeps(events: seq<Event>, more: seq<Event>, decode: seq<byte> -> Decoded<Message>)
    ensures Accounted(Run(FRESH, events, decode))
    ensures Extends(Run(FRESH, events, decode), Run(Run(FRESH, events, decode), more, decode))
    ensures Accounted(Run(Run(FRESH, events, decode), more, decode))
    decreases |events| + |more|
  {
    if more != [] {
      RunKeeps(events, more[..|more| - 1], decode);
      StepKeeps(Run(Run(FRESH, events, decode), more[..|more| - 1], decode), more[|more| - 1], decode);
    } else if events != [] {
      RunKeeps(events[..|events| - 1], [], decode);
      StepKeeps(Run(FRESH, events[..|events| - 1], decode), events[|events| - 1], decode);
    }
  }

  /** A framing or transport failure leaves nothing pending, so every issued request is settled. */
  lemma FailureSettlesAll(s: State, reason: Reason)
    requires Accounted(s)
    ensures Fail(s, reason).pending == {} && Fail(s, reason).failure.Some?
    ensures forall id: int :: 1 <= id <= s.requestId <==> id in Fail(s, reason).settled
  {
    assert forall id: int :: id in Fail(s, reason).settled <==> id in s.pending || id in s.settled;
  }

  // ---------------------------------------------------------------------------
  // What settles a request, and how
  // ---------------------------------------------------------------------------

  predicate RepliesTo(m: Message, id: int) {
    m.Response? && m.id == id
  }

  /** Message `i` is the first response that carries `id`. */
  ghost predicate FirstReply(messages: seq<Message>, id: int, i: nat) {
    i < |messages| && RepliesTo(messages[i], id) && forall j :: 0 <= j < i ==> !RepliesTo(messages[j], id)
  }

  ghost predicate NoReply(messages: seq<Message>, id: int) {
    forall m :: m in messages ==> !RepliesTo(m, id)
  }

  ghost predicate SameOutcome(s: State, t: State, id: int) {
    (id in t.settled <==> id in s.settled) && (id in s.settled ==> t.settled[id] == s.settled[id])
  }

  /** Taken from the registry, with this outcome unless the request had one already. */
  ghost predicate SettledAs(s: State, t: State, id: int, outcome: Settlement) {
    id !in t.pending && id in t.settled && t.settled[id] == if id in s.settled then s.settled[id] else outcome
  }

  /** What delivering the messages makes of one request: a pending one is settled by its first response,
      which resolves it if it is no error and rejects it otherwise; a pending one without a response is
      rejected with the session's failure if the stream failed, and else stays pending; any other is left alone. */
  ghost predicate RequestAfter(s: State, t: State, messages: seq<Message>, failed: bool, id: int) {
    && (id !in s.pending ==> id !in t.pending && SameOutcome(s, t, id))
    && (forall i: nat :: id in s.pending && FirstReply(messages, id, i) ==>
          SettledAs(s, t, id,
                    if messages[i].isError then ErrorReply(messages[i].content) else Resolved(messages[i].content)))
    && (id in s.pending && NoReply(messages, id) ==>
          if failed then t.failure.Some? && SettledAs(s, t, id, Rejected(t.failure.value))
          else id in t.pending && SameOutcome(s, t, id))
  }

  /** The same for a whole chunk: a framing error rejects what the messages before it left pending with
      the first failure of the session. */
  ghost predicate ChunkSettles(s: State, t: State, parsed: Parsed<Message>) {
    && t.requestId == s.requestId
    && t.failure == (if parsed.Failed? && s.failure.None? then Some(FramingFailure(parsed.error)) else s.failure)
    && t.buffer == (if parsed.Parsed? then parsed.remaining else [])
    && forall id: int :: RequestAfter(s, t, parsed.messages, parsed.Failed?, id)
  }

  lemma {:induction false} MessagesSettle(s: State, messages: seq<Message>, id: int)
    ensures RequestAfter(s, DispatchAll(s, messages), messages, false, id)
  {
    if messages != [] {
      var before, last := messages[..|messages| - 1], messages[|messages| - 1];
      MessagesSettle(s, before, id);
      assert messages == before + [last];
      hide RequestAfter;
      OneMoreSettles(s, DispatchAll(s, before), before, last, id);
    }
  }

  lemma OneMoreSettles(s: State, t: State, before: seq<Message>, last: Message, id: int)
    requires RequestAfter(s, t, before, false, id)
    ensures RequestAfter(s, Dispatch(t, last), before + [last], false, id)
  {
    var u := Dispatch(t, last);
    FirstOfMore(before, last, id);
    if NoReply(before, id) {
      hide FirstReply, NoReply;
    } else {
      FirstExists(before, id);
      hide FirstReply, NoReply;
      assert id !in t.pending;
      assert SameOutcome(t, u, id) && id !in u.pending;
    }
  }

  lemma FirstOfMore(before: seq<Message>, last: Message, id: int)
    ensures forall i: nat :: FirstReply(before + [last], id, i) <==>
              FirstReply(before, id, i) || (i == |before| && NoReply(before, id) && RepliesTo(last, id))
    ensures NoReply(before + [last], id) <==> NoReply(before, id) && !RepliesTo(last, id)
    ensures forall i: nat :: FirstReply(before, id, i) ==> !NoReply(before, id) && (before + [last])[i] == before[i]
  {
    var all := before + [last];
    assert forall i :: 0 <= i < |before| ==> all[i] == before[i];
    assert all[|before|] == last;
    assert forall m :: m in all <==> m in before || m == last;
  }

  lemma {:induction false} FirstExists(messages: seq<Message>, id: int)
    requires !NoReply(messages, id)
    ensures exists i: nat :: FirstReply(messages, id, i)
  {
    var before, last := messages[..|messages| - 1], messages[|messages| - 1];
    assert messages == before + [last];
    if !NoReply(before, id) {
      FirstExists(before, id);
      var i: nat :| FirstReply(before, id, i);
      assert FirstReply(messages, id, i);
    } else {
      assert FirstReply(messages, id, |before|);
    }
  }

  /** Responses reach their requests: what any chunk does to every request of the session. */
  lemma ChunkSettlesRequests(s: State, chunk: seq<byte>, decode: seq<byte> -> Decoded<Message>)
    ensures ChunkSettles(s, OnData(s, chunk, decode), Parse(s.buffer + chunk, decode))
  {
    hide Parse;
    var p := Parse(s.buffer + chunk, decode);
    var start := s.(buffer := if p.Parsed? then p.remaining else []);
    var after := DispatchAll(start, p.messages);
    DispatchKeepsRest(start, p.messages);
    hide DispatchAll;
    forall id: int ensures RequestAfter(s, OnData(s, chunk, decode), p.messages, p.Failed?, id) {
      MessagesSettle(start, p.messages, id);
      assert RequestAfter(s, after, p.messages, false, id);
    }
  }

  lemma {:induction false} DispatchKeepsRest(s: State, messages: seq<Message>)
    ensures var t := DispatchAll(s, messages);
            t.buffer == s.buffer && t.failure == s.failure && t.requestId == s.requestId
  {
    if messages != [] {
      DispatchKeepsRest(s, messages[..|messages| - 1]);
    }
  }

  /** What every other event makes of a request that is pending and has no outcome: an abort or timeout
      rejects just the request it names, a failed stream and disposal reject every one, and the exit of
      the process and further requests leave it pending. */
  lemma EventSettles(s: State, e: Event, decode: seq<byte> -> Decoded<Message>, id: int)
    requires id in s.pending && id !in s.settled && !e.Data? && Accounted(s)
    ensures var t := Step(s, e, decode);
            && (id in t.pending <==> id !in t.settled)
            && (id in t.settled <==>
                  e == Abort(id) || e == Timeout(id) || e.StreamFailed? || e.Dispose?)
            && (e == Abort(id) ==> t.settled[id] == Rejected(RequestAborted))
            && (e == Timeout(id) ==> t.settled[id] == Rejected(RequestTimedOut))
            && (e.StreamFailed? ==>
                  t.settled[id] == Rejected(if s.failure.Some? then s.failure.value else ProcessFailure(e.text)))
            && (e.Dispose? ==> t.settled[id] == Rejected(SessionDisposed))
            && t.failure ==
               (if (e.StreamFailed? || e.ProcessExited?) && s.failure.None? then Some(ProcessFailure(e.text)) else s.failure)
  {
  }

  // ---------------------------------------------------------------------------
  // Chunk boundaries are invisible to requesters
  // ---------------------------------------------------------------------------

  /** Everything a requester can observe. */
  function Observed(s: State): State {
    s.(buffer := [])
  }

  lemma {:induction false} DispatchConcat(s: State, xs: seq<Message>, ys: seq<Message>)
    ensures DispatchAll(s, xs + ys) == DispatchAll(DispatchAll(s, xs), ys)
  {
    if ys == [] {
      assert xs + ys == xs;
    } else {
      assert (xs + ys)[..|xs + ys| - 1] == xs + ys[..|ys| - 1];
      DispatchConcat(s, xs, ys[..|ys| - 1]);
    }
  }

  lemma {:induction false} DispatchIgnoresBuffer(s: State, buffer: seq<byte>, ms: seq<Message>)
    ensures DispatchAll(s.(buffer := buffer), ms) == DispatchAll(s, ms).(buffer := buffer)
    ensures DispatchAll(s, ms).buffer == s.buffer
  {
    if ms != [] {
      DispatchIgnoresBuffer(s, buffer, ms[..|ms| - 1]);
    }
  }

  lemma {:induction false} DispatchIdle(s: State, ms: seq<Message>)
    requires s.pending == {}
    ensures DispatchAll(s, ms) == s
  {
    if ms != [] {
      DispatchIdle(s, ms[..|ms| - 1]);
    }
  }

  /** Data reaching a failed, drained session changes only its buffer. */
  lemma DataAfterFailure(s: State, chunk: seq<byte>, decode: seq<byte> -> Decoded<Message>)
    requires s.pending == {} && s.failure.Some?
    ensures Observed(OnData(s, chunk, decode)) == Observed(s)
  {
    hide Parse;
    var p := Parse(s.buffer + chunk, decode);
    DispatchIdle(s.(buffer := if p.Parsed? then p.remaining else []), p.messages);
    var reason := s.failure.value;
    assert (map id | id in s.pending :: Rejected(reason)) + s.settled == s.settled;
  }

  lemma TwoChunksAsOne(s: State, a: seq<byte>, b: seq<byte>, decode: seq<byte> -> Decoded<Message>)
    ensures Observed(OnData(OnData(s, a, decode), b, decode)) == Observed(OnData(s, a + b, decode))
    ensures Parse(s.buffer + a, decode).Parsed? ==> OnData(OnData(s, a, decode), b, decode) == OnData(s, a + b, decode)
  {
    hide Parse;
    assert s.buffer + (a + b) == s.buffer + a + b;
    ParseAppend(s.buffer + a, b, decode);
    var p := Parse(s.buffer + a, decode);
    if p.Parsed? {
      var q := Parse(p.remaining + b, decode);
      var t := DispatchAll(s.(buffer := p.remaining), p.messages);
      var rest := if q.Parsed? then q.remaining else [];
      DispatchIgnoresBuffer(s, p.remaining, p.messages);
      DispatchIgnoresBuffer(s, rest, p.messages);
      DispatchConcat(s.(buffer := rest), p.messages, q.messages);
      assert t.(buffer := rest) == DispatchAll(s.(buffer := rest), p.messages);
    } else {
      DataAfterFailure(OnData(s, a, decode), b, decode);
    }
  }

  function OnChunks(s: State, chunks: seq<seq<byte>>, decode: seq<byte> -> Decoded<Message>): State {
    if chunks == [] then s else OnData(OnChunks(s, chunks[..|chunks| - 1], decode), chunks[|chunks| - 1], decode)
  }

  /** Whatever the cut, requests end up with the same outcomes and the session with the
      same failure, also when data keeps arriving after a framing error. */
  lemma {:induction false} ChunksAreInvisible(s: State, chunks: seq<seq<byte>>, decode: seq<byte> -> Decoded<Message>)
    requires chunks != []
    ensures Observed(OnChunks(s, chunks, decode)) == Observed(OnData(s, Concat(chunks), decode))
    ensures Parse(s.buffer + Concat(chunks), decode).Parsed? ==>
              OnChunks(s, chunks, decode) == OnData(s, Concat(chunks), decode)
  {
    hide Parse;
    var earlier, last := chunks[..|chunks| - 1], chunks[|chunks| - 1];
    if earlier == [] {
      assert Concat(earlier) == [];
      assert Concat(chunks) == last;
    } else {
      ChunksAreInvisible(s, earlier, decode);
      TwoChunksAsOne(s, Concat(earlier), last, decode);
      assert s.buffer + Concat(chunks) == s.buffer + Concat(earlier) + last;
      ParseAppend(s.buffer + Concat(earlier), last, decode);
      var p := Parse(s.buffer + Concat(earlier), decode);
      if !p.Parsed? {
        DataAfterFailure(OnChunks(s, earlier, decode), last, decode);
      }
    }
  }

  // ---------------------------------------------------------------------------
  // The session object
  // ---------------------------------------------------------------------------

  class Session {
    var buffer: seq<byte>
    var requestId: nat
    var pending: set<int>
    var settled: map<int, Settlement>
    var failure: Option<Reason>

    ghost function View(): State
      reads this
    {
      State(buffer, requestId, pending, settled, failure)
    }

    constructor ()
      ensures View() == FRESH
    {
      buffer, requestId, pending, settled, failure := [], 0, {}, map[], None;
    }

    method SendRequest(alreadyAborted: bool, writeFails: bool) returns (id: Option<int>)
      modifies this
      ensures View() == if old(failure).Some? || alreadyAborted then old(View()) else Send(old(View()), writeFails)
      ensures id == if old(failure).Some? || alreadyAborted then None else Some(old(requestId) + 1)
      ensures id.Some? ==> pending == old(pending) + {id.value} && requestId == id.value
      ensures settled == if id.Some? && writeFails && id.value !in old(settled)
                         then old(settled)[id.value := Rejected(WriteFailed)] else old(settled)
      ensures failure == old(failure) && buffer == old(buffer)
    {
      if failure.Some? || alreadyAborted {
        return None;
      }
      requestId := requestId + 1;
      pending := pending + {requestId as int};
      if writeFails && requestId !in settled {
        settled := settled[requestId := Rejected(WriteFailed)];
      }
      id := Some(requestId);
    }

    method TakePending(id: int, outcome: Settlement)
      modifies this`pending, this`settled
      ensures View() == Take(old(View()), id, outcome)
      ensures pending == old(pending) - {id}
      ensures settled == if id in old(pending) && id !in old(settled) then old(settled)[id := outcome] else old(settled)
    {
      if id in pending {
        pending := pending - {id};
        if id !in settled {
          settled := settled[id := outcome];
        }
      }
    }

    method FailSession(reason: Reason)
      modifies this
      ensures View() == Fail(old(View()), reason)
      ensures failure == Some(if old(failure).Some? then old(failure).value else reason) && pending == {}
      ensures forall id :: id in settled <==> id in old(settled) || id in old(pending)
      ensures forall id :: id in settled ==>
                settled[id] == if id in old(settled) then old(settled)[id] else Rejected(failure.value)
      ensures requestId == old(requestId) && buffer == old(buffer)
    {
      if failure.None? {
        failure := Some(reason);
      }
      settled := (map id | id in pending :: Rejected(failure.value)) + settled;
      pending := {};
    }

    method HandleIncomingData(chunk: seq<byte>, decode: seq<byte> -> Decoded<Message>)
      modifies this
      ensures View() == OnData(old(View()), chunk, decode)
      ensures ChunkSettles(old(View()), View(), Parse(old(buffer) + chunk, decode))
    {
      hide Parse;
      ChunkSettlesRequests(View(), chunk, decode);
      hide ChunkSettles;
      buffer := buffer + chunk;
      var parsed := ParseMessages(buffer, decode);
      buffer := if parsed.Parsed? then parsed.remaining else [];
      ghost var start := View();
      for i := 0 to |parsed.messages|
        invariant View() == DispatchAll(start, parsed.messages[..i])
      {
        assert parsed.messages[..i + 1][..i] == parsed.messages[..i];
        var m := parsed.messages[i];
        if m.Response? {
          TakePending(m.id, if m.isError then ErrorReply(m.content) else Resolved(m.content));
        }
      }
      assert parsed.messages[..|parsed.messages|] == parsed.messages;
      if parsed.Failed? {
        FailSession(FramingFailure(parsed.error));
      }
    }
  }
}
