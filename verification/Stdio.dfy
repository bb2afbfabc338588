/** The frame multiplexer of plugin/stdio.go: one reader, a goroutine per call
    from OLP, and capability requests that the plugin makes of OLP, all over one
    byte stream.

    `Table` is what the session's mutex guards. `State` adds the reader, every
    call's goroutine, every host call with its one-slot channel, and the frames
    written; `Apply` is one atomic step of one of them. */
module Stdio {
  import opened Common

  const MAX_FRAME: nat := 0x10_0000
  const UINT64: nat := 0x1_0000_0000_0000_0000

  /** The session's guarded fields: running calls and pending capability
      requests by frame id, and the last id given to a request. A call is named
      by its place in `State.calls`, a channel by its place in `State.hosts`. */
  datatype Table = Table(calls: map<nat, nat>, requests: map<nat, nat>, next: nat)

  function Registered(t: Table, id: nat, call: nat): Table {
    t.(calls := t.calls[id := call])
  }

  function Unregistered(t: Table, id: nat): Table {
    t.(calls := t.calls - {id})
  }

  function NextId(t: Table): nat {
    (t.next + 1) % UINT64
  }

  function Requested(t: Table, channel: nat): Table {
    t.(next := NextId(t), requests := t.requests[NextId(t) := channel])
  }

  function Forgotten(t: Table, id: nat): Table {
    t.(requests := t.requests - {id})
  }

  /** A response frame from OLP, with the id it carries. */
  datatype Reply = Reply(id: nat, payload: nat)

  datatype Answer = Replied(reply: Reply) | Unreachable | CallEnded

  datatype Stage =
    | Sending               // registered; about to write its request frame
    | Selecting             // in the select over its channel and its context
    | Forgetting(a: Answer) // about to delete its entry
    | Returned(a: Answer)

  /** A host call: its id, its channel's buffer, and how many replies have ever
      been put into that channel. */
  datatype HostCall = HostCall(id: nat, stage: Stage, buffer: seq<Reply>, delivered: nat)

  /** A call's goroutine. A handler that panics reaches Handled like any other. */
  datatype Progress =
    | Handling
    | Handled(result: nat, size: nat)   // the answer, and its frame's length
    | Answering(result: nat, size: nat) // unregistered; about to write it
    | Done(written: bool)

  datatype Call = Call(id: nat, progress: Progress, cancelled: bool)

  /** Result None is the error that replaces an answer of MAX_FRAME or more. */
  datatype Frame =
    | Request(id: nat)
    | Part(call: nat, id: nat, payload: nat)
    | Response(call: nat, id: nat, result: Option<nat>)

  datatype Reader = Idle | Handing(host: nat, reply: Reply)

  datatype State = State(table: Table, reader: Reader, calls: seq<Call>, hosts: seq<HostCall>, output: seq<Frame>)

  datatype Event =
    | ReceiveRequest(id: nat)
    | ReceiveResponse(reply: Reply)
    | Deliver
    | ReceiveCancel(id: nat)
    | HostBegin
    | HostSend(h: nat, ok: bool)
    | HostTake(h: nat)
    | HostEnd(h: nat)
    | HostForget(h: nat)
    | SendPart(n: nat, payload: nat, size: nat, ok: bool)
    | Handle(n: nat, result: nat, size: nat)
    | Unregister(n: nat)
    | Answer(n: nat, ok: bool)

  function Init(): State {
    State(Table(map[], map[], 0), Idle, [], [], [])
  }

  predicate Host(s: State, h: nat) {
    h < |s.hosts|
  }

  predicate Running(s: State, n: nat) {
    n < |s.calls| && s.calls[n].progress.Handling?
  }

  /** A call is in flight from its request frame until its answer was written. */
  predicate InFlight(s: State, n: nat) {
    n < |s.calls| && !s.calls[n].progress.Done?
  }

  /** When a step can happen: the reader reads only when it is not handing a
      reply over, and handing over needs room in the channel's one slot. */
  predicate Enabled(s: State, e: Event) {
    match e
    case ReceiveRequest(_) => s.reader.Idle?
    case ReceiveResponse(_) => s.reader.Idle?
    case ReceiveCancel(_) => s.reader.Idle?
    case Deliver => s.reader.Handing? && Host(s, s.reader.host) && |s.hosts[s.reader.host].buffer| < 1
    case HostBegin => true
    case HostSend(h, _) => Host(s, h) && s.hosts[h].stage.Sending?
    case HostTake(h) => Host(s, h) && s.hosts[h].stage.Selecting? && s.hosts[h].buffer != []
    case HostEnd(h) => Host(s, h) && s.hosts[h].stage.Selecting?
    case HostForget(h) => Host(s, h) && s.hosts[h].stage.Forgetting?
    case SendPart(n, _, _, _) => Running(s, n)
    case Handle(n, _, _) => Running(s, n)
    case Unregister(n) => n < |s.calls| && s.calls[n].progress.Handled?
    case Answer(n, _) => n < |s.calls| && s.calls[n].progress.Answering?
  }

  function AtStage(s: State, h: nat, stage: Stage): State
    requires Host(s, h)
  {
    s.(hosts := s.hosts[h := s.hosts[h].(stage := stage)])
  }

  function AtProgress(s: State, n: nat, progress: Progress): State
    requires n < |s.calls|
  {
    s.(calls := s.calls[n := s.calls[n].(progress := progress)])
  }

  function Apply(s: State, e: Event): State
    requires Enabled(s, e)
  {
    match e
    case ReceiveRequest(id) =>
      s.(table := Registered(s.table, id, |s.calls|), calls := s.calls + [Call(id, Handling, false)])
    case ReceiveResponse(reply) =>
      s.(table := Forgotten(s.table, reply.id),
         reader := if reply.id in s.table.requests then Handing(s.table.requests[reply.id], reply) else Idle)
    case Deliver =>
      var h := s.reader.host;
      s.(reader := Idle,
         hosts := s.hosts[h := s.hosts[h].(buffer := s.hosts[h].buffer + [s.reader.reply],
           delivered := s.hosts[h].delivered + 1)])
    case ReceiveCancel(id) =>
      if id in s.table.calls && s.table.calls[id] < |s.calls| then
        var n := s.table.calls[id];
        s.(calls := s.calls[n := s.calls[n].(cancelled := true)])
      else s
    case HostBegin =>
      s.(table := Requested(s.table, |s.hosts|), hosts := s.hosts + [HostCall(NextId(s.table), Sending, [], 0)])
    case HostSend(h, ok) =>
      if ok then AtStage(s, h, Selecting).(output := s.output + [Request(s.hosts[h].id)])
      else AtStage(s, h, Forgetting(Unreachable))
    case HostTake(h) =>
      s.(hosts := s.hosts[h := s.hosts[h].(stage := Returned(Replied(s.hosts[h].buffer[0])),
        buffer := s.hosts[h].buffer[1..])])
    case HostEnd(h) => AtStage(s, h, Forgetting(CallEnded))
    case HostForget(h) => AtStage(s, h, Returned(s.hosts[h].stage.a)).(table := Forgotten(s.table, s.hosts[h].id))
    case SendPart(n, payload, size, ok) =>
      if ok && size < MAX_FRAME then s.(output := s.output + [Part(n, s.calls[n].id, payload)]) else s
    case Handle(n, result, size) => AtProgress(s, n, Handled(result, size))
    case Unregister(n) =>
      var p := s.calls[n].progress;
      AtProgress(s, n, Answering(p.result, p.size)).(table := Unregistered(s.table, s.calls[n].id))
    case Answer(n, ok) =>
      var p := s.calls[n].progress;
      var result := if p.size >= MAX_FRAME then None else Some(p.result);
      var s' := AtProgress(s, n, Done(ok));
      if ok then s'.(output := s.output + [Response(n, s.calls[n].id, result)]) else s'
  }

  /** OLP numbers its calls, so a fresh request reuses no id still in flight. */
  predicate FreshId(s: State, e: Event) {
    e.ReceiveRequest? ==> forall n :: 0 <= n < |s.calls| && InFlight(s, n) ==> s.calls[n].id != e.id
  }

  /** A run from `s`; a `strict` one reuses no id that is in flight. */
  predicate Runs(s: State, events: seq<Event>, strict: bool)
    decreases |events|
  {
    events == [] ||
    (Enabled(s, events[0]) && (strict ==> FreshId(s, events[0])) && Runs(Apply(s, events[0]), events[1..], strict))
  }

  function After(s: State, events: seq<Event>, strict: bool): State
    requires Runs(s, events, strict)
    decreases |events|
  {
    if events == [] then s else After(Apply(s, events[0]), events[1..], strict)
  }

  // Host calls: each channel receives at most one reply, and its own.

  ghost predicate HostAgrees(s: State, h: nat)
    requires Host(s, h)
  {
    var c := s.hosts[h];
    && c.id == (h + 1) % UINT64
    && |c.buffer| <= c.delivered <= 1
    && (forall r :: r in c.buffer ==> r.id == c.id)
    && (c.stage.Returned? && c.stage.a.Replied? ==> c.stage.a.reply.id == c.id && c.delivered == 1 && c.buffer == [])
    && (c.stage.Forgetting? ==> !c.stage.a.Replied?)
    && (c.stage.Returned? ==> c.id in s.table.requests ==> s.table.requests[c.id] != h)
  }

  /** A pending entry names a channel that waits for that id. */
  predicate Awaits(s: State, h: nat, id: nat) {
    Host(s, h) && s.hosts[h].id == id && s.hosts[h].delivered == 0
  }

  predicate ReaderAgrees(s: State) {
    s.reader.Handing? ==>
      var h, id := s.reader.host, s.reader.reply.id;
      Awaits(s, h, id) && (id in s.table.requests ==> s.table.requests[id] != h)
  }

  predicate PendingAgree(s: State) {
    && s.table.next == |s.hosts| % UINT64 && ReaderAgrees(s)
    && forall id :: id in s.table.requests ==> Awaits(s, s.table.requests[id], id)
  }

  ghost predicate HostInv(s: State) {
    PendingAgree(s) && forall h :: Host(s, h) ==> HostAgrees(s, h)
  }

  lemma StepKeepsAwaiting(s: State, e: Event, h: nat, id: nat)
    requires Enabled(s, e) && Awaits(s, h, id) && !(e.Deliver? && s.reader.host == h)
    ensures Awaits(Apply(s, e), h, id)
  {
  }

  lemma StepKeepsReader(s: State, e: Event)
    requires Enabled(s, e) && PendingAgree(s)
    ensures ReaderAgrees(Apply(s, e))
  {
  }

  lemma StepKeepsPending(s: State, e: Event)
    requires PendingAgree(s) && Enabled(s, e)
    ensures PendingAgree(Apply(s, e))
  {
    StepKeepsReader(s, e);
    var t := Apply(s, e);
    forall id | id in t.table.requests ensures Awaits(t, t.table.requests[id], id) {
      if id in s.table.requests && t.table.requests[id] == s.table.requests[id] {
        StepKeepsAwaiting(s, e, s.table.requests[id], id);
      }
    }
  }

  lemma StepKeepsHost(s: State, e: Event, h: nat)
    requires HostInv(s) && Enabled(s, e) && Host(Apply(s, e), h)
    ensures HostAgrees(Apply(s, e), h)
  {
    if Host(s, h) {
      assert HostAgrees(s, h);
    }
  }

  lemma StepKeepsHosts(s: State, e: Event)
    requires HostInv(s) && Enabled(s, e)
    ensures HostInv(Apply(s, e))
  {
    StepKeepsPending(s, e);
    forall h | Host(Apply(s, e), h) ensures HostAgrees(Apply(s, e), h) {
      StepKeepsHost(s, e, h);
    }
  }

  lemma {:induction false} RunKeepsHosts(s: State, events: seq<Event>, strict: bool)
    requires HostInv(s) && Runs(s, events, strict)
    ensures HostInv(After(s, events, strict))
    decreases |events|
  {
    if events != [] {
      StepKeepsHosts(s, events[0]);
      RunKeepsHosts(Apply(s, events[0]), events[1..], strict);
    }
  }

  /** Handing a reply over never blocks the reader. */
  lemma ReaderNeverBlocks(events: seq<Event>, strict: bool)
    requires Runs(Init(), events, strict) && After(Init(), events, strict).reader.Handing?
    ensures Enabled(After(Init(), events, strict), Deliver)
  {
    RunKeepsHosts(Init(), events, strict);
    var s := After(Init(), events, strict);
    assert HostAgrees(s, s.reader.host);
  }

  /** Every host call is handed at most one reply, always one carrying its id,
      and has left no entry behind once it returned. Ids wrap at 64 bits; none
      of this needs them to be unique. */
  lemma HostCallGetsOnlyItsReply(events: seq<Event>, strict: bool, h: nat)
    requires Runs(Init(), events, strict) && Host(After(Init(), events, strict), h)
    ensures var s := After(Init(), events, strict);
            && s.hosts[h].delivered <= 1
            && (s.hosts[h].stage.Returned? && s.hosts[h].stage.a.Replied? ==>
                 s.hosts[h].stage.a.reply.id == s.hosts[h].id)
            && (s.hosts[h].stage.Returned? ==> h !in s.table.requests.Values)
  {
    RunKeepsHosts(Init(), events, strict);
    var s := After(Init(), events, strict);
    assert HostAgrees(s, h);
    if h in s.table.requests.Values {
      var id :| id in s.table.requests && s.table.requests[id] == h;
    }
  }

  // No reply is lost while ids have not wrapped.

  ghost predicate Reachable(s: State, h: nat)
    requires Host(s, h)
  {
    var c := s.hosts[h];
    (c.stage.Sending? || c.stage.Selecting?) && c.delivered == 0 && !(s.reader.Handing? && s.reader.host == h) ==>
      c.id in s.table.requests && s.table.requests[c.id] == h
  }

  ghost predicate NothingLost(s: State) {
    |s.hosts| < UINT64 ==> forall h :: Host(s, h) ==> Reachable(s, h)
  }

  lemma NumberedFromOne(s: State, h: nat)
    requires HostInv(s) && Host(s, h) && |s.hosts| < UINT64
    ensures s.hosts[h].id == h + 1
  {
    assert HostAgrees(s, h);
  }

  lemma StepKeepsReachable(s: State, e: Event, h: nat)
    requires Enabled(s, e) && Host(s, h) && Reachable(s, h) && s.hosts[h].id == h + 1
    requires e.HostForget? ==> s.hosts[e.h].id == e.h + 1
    requires e.HostBegin? ==> NextId(s.table) == |s.hosts| + 1
    requires s.reader.Handing? ==> s.reader.host < |s.hosts|
    ensures Reachable(Apply(s, e), h)
  {
  }

  lemma StepLosesNot(s: State, e: Event, h: nat)
    requires HostInv(s) && NothingLost(s) && Enabled(s, e) && Host(Apply(s, e), h)
    requires |Apply(s, e).hosts| < UINT64
    ensures Reachable(Apply(s, e), h)
  {
    if Host(s, h) {
      NumberedFromOne(s, h);
      if e.HostForget? {
        NumberedFromOne(s, e.h);
      }
      hide HostAgrees, Reachable;
      assert Reachable(s, h);
      StepKeepsReachable(s, e, h);
    }
  }

  lemma StepLosesNothing(s: State, e: Event)
    requires HostInv(s) && NothingLost(s) && Enabled(s, e)
    ensures NothingLost(Apply(s, e))
  {
    var t := Apply(s, e);
    if |t.hosts| < UINT64 {
      forall h | Host(t, h) ensures Reachable(t, h) {
        StepLosesNot(s, e, h);
      }
    }
  }

  lemma {:induction false} RunLosesNothing(s: State, events: seq<Event>, strict: bool)
    requires HostInv(s) && NothingLost(s) && Runs(s, events, strict)
    ensures NothingLost(After(s, events, strict)) && HostInv(After(s, events, strict))
    decreases |events|
  {
    if events != [] {
      StepKeepsHosts(s, events[0]);
      StepLosesNothing(s, events[0]);
      RunLosesNothing(Apply(s, events[0]), events[1..], strict);
    }
  }

  /** While fewer than 2^64 host calls were made, a call that still waits and
      has been handed nothing is where its reply will find it. */
  lemma ReplyFindsItsHostCall(events: seq<Event>, strict: bool, h: nat, payload: nat)
    requires Runs(Init(), events, strict) && Host(After(Init(), events, strict), h)
    requires var s := After(Init(), events, strict);
             && |s.hosts| < UINT64 && s.reader.Idle?
             && s.hosts[h].stage.Selecting? && s.hosts[h].delivered == 0
    ensures var s := After(Init(), events, strict);
            Apply(s, ReceiveResponse(Reply(s.hosts[h].id, payload))).reader == Handing(h, Reply(s.hosts[h].id, payload))
  {
    RunLosesNothing(Init(), events, strict);
    assert Reachable(After(Init(), events, strict), h);
  }

  // Calls: parts, then exactly one answer, then nothing.

  /** The frames call `n` wrote, in order. */
  function Of(output: seq<Frame>, n: nat): seq<Frame> {
    if output == [] then []
    else
      var last := output[|output| - 1];
      Of(output[..|output| - 1], n) + if !last.Request? && last.call == n then [last] else []
  }

  lemma OfAppend(output: seq<Frame>, f: Frame, n: nat)
    ensures Of(output + [f], n) == Of(output, n) + if !f.Request? && f.call == n then [f] else []
  {
    assert (output + [f])[..|output|] == output;
  }

  predicate Parts(frames: seq<Frame>) {
    forall f :: f in frames ==> f.Part?
  }

  /** Zero or more parts and then one response, nothing after it. */
  predicate Complete(frames: seq<Frame>) {
    frames != [] && Parts(frames[..|frames| - 1]) && frames[|frames| - 1].Response?
  }

  /** What a call at this point may have written. */
  predicate Written(frames: seq<Frame>, progress: Progress, id: nat) {
    && (progress == Done(true) ==> Complete(frames))
    && (progress != Done(true) ==> Parts(frames))
    && (forall f :: f in frames ==> f.id == id)
  }

  ghost predicate CallAgrees(s: State, n: nat)
    requires n < |s.calls|
  {
    Written(Of(s.output, n), s.calls[n].progress, s.calls[n].id)
  }

  ghost predicate CallInv(s: State) {
    && (forall n: nat :: n < |s.calls| ==> CallAgrees(s, n))
    && (forall n: nat :: n >= |s.calls| ==> Of(s.output, n) == [])
  }

  /** A step writes at most one frame. */
  lemma StepWritesOneFrame(s: State, e: Event)
    requires Enabled(s, e)
    ensures var t := Apply(s, e);
            t.output == s.output || (|t.output| == |s.output| + 1 && t.output == s.output + [t.output[|s.output|]])
  {
  }

  predicate Writes(e: Event, n: nat) {
    match e
    case SendPart(m, _, _, _) => m == n
    case Answer(m, _) => m == n
    case _ => false
  }

  lemma StepExtends(s: State, e: Event, n: nat)
    requires Enabled(s, e)
    ensures var was, now := Of(s.output, n), Of(Apply(s, e).output, n);
            if Writes(e, n) && |Apply(s, e).output| == |s.output| + 1 then
              |now| == |was| + 1 && now[..|was|] == was && now[|was|] == Apply(s, e).output[|s.output|]
            else now == was
  {
    StepWritesOneFrame(s, e);
    var t := Apply(s, e);
    if t.output != s.output {
      OfAppend(s.output, t.output[|s.output|], n);
    }
  }

  /** A part, or the one answer, extends what was written; `now` is one longer. */
  lemma WritingKeepsForm(was: seq<Frame>, now: seq<Frame>, progress: Progress, id: nat)
    requires |now| == |was| + 1 && now[..|was|] == was && now[|was|].id == id
    requires Written(was, Handling, id)
    requires if progress == Done(true) then now[|was|].Response? else now[|was|].Part?
    ensures Written(now, progress, id)
  {
    assert forall f :: f in now ==> f in was || f == now[|was|];
  }

  lemma SilentStepKeepsProgress(s: State, e: Event, n: nat)
    requires Enabled(s, e) && n < |s.calls| && (!Writes(e, n) || Apply(s, e).output == s.output)
    ensures n < |Apply(s, e).calls| && Apply(s, e).calls[n].id == s.calls[n].id
    ensures Apply(s, e).calls[n].progress == Done(true) <==> s.calls[n].progress == Done(true)
  {
  }

  lemma StepKeepsCall(s: State, e: Event, n: nat)
    requires CallInv(s) && Enabled(s, e) && n < |Apply(s, e).calls|
    ensures CallAgrees(Apply(s, e), n)
  {
    hide Of, Written;
    StepExtends(s, e, n);
    if n >= |s.calls| {
      NothingWritten(Apply(s, e).calls[n]);
    } else {
      assert CallAgrees(s, n);
      var t := Apply(s, e);
      if Writes(e, n) && |t.output| == |s.output| + 1 {
        WrittenAlike(Of(s.output, n), s.calls[n].progress, Handling, s.calls[n].id);
        WritingKeepsForm(Of(s.output, n), Of(t.output, n), t.calls[n].progress, s.calls[n].id);
      } else {
        SilentStepKeepsProgress(s, e, n);
        WrittenAlike(Of(s.output, n), s.calls[n].progress, t.calls[n].progress, s.calls[n].id);
      }
    }
  }

  lemma NothingWritten(call: Call)
    requires call.progress.Handling?
    ensures Written([], call.progress, call.id)
  {
  }

  lemma WrittenAlike(frames: seq<Frame>, progress: Progress, progress': Progress, id: nat)
    requires Written(frames, progress, id) && (progress == Done(true) <==> progress' == Done(true))
    ensures Written(frames, progress', id)
  {
  }

  lemma StepKeepsCalls(s: State, e: Event)
    requires CallInv(s) && Enabled(s, e)
    ensures CallInv(Apply(s, e))
  {
    forall n: nat | n < |Apply(s, e).calls| ensures CallAgrees(Apply(s, e), n) {
      StepKeepsCall(s, e, n);
    }
    forall n: nat | n >= |Apply(s, e).calls| ensures Of(Apply(s, e).output, n) == [] {
      StepExtends(s, e, n);
    }
  }

  lemma {:induction false} RunKeepsCalls(s: State, events: seq<Event>, strict: bool)
    requires CallInv(s) && Runs(s, events, strict)
    ensures CallInv(After(s, events, strict))
    decreases |events|
  {
    if events != [] {
      StepKeepsCalls(s, events[0]);
      RunKeepsCalls(Apply(s, events[0]), events[1..], strict);
    }
  }

  /** In every run, what a call has written is parts alone while it is in
      flight, and parts then exactly one response once its answer was written,
      all under its id, whether its handler returned, panicked or was cancelled. */
  lemma CallWritesPartsThenOneResponse(events: seq<Event>, strict: bool, n: nat)
    requires Runs(Init(), events, strict) && n < |After(Init(), events, strict).calls|
    ensures var s := After(Init(), events, strict);
            && (s.calls[n].progress == Done(true) ==> Complete(Of(s.output, n)))
            && (s.calls[n].progress != Done(true) ==> Parts(Of(s.output, n)))
            && (forall f :: f in Of(s.output, n) ==> f.id == s.calls[n].id)
  {
    RunKeepsCalls(Init(), events, strict);
    assert CallAgrees(After(Init(), events, strict), n);
  }

  // Attribution: with no id reused in flight, an id names one call at a time.

  /** From its request frame until it unregisters, a call owns its id's entry. */
  predicate Holds(s: State, n: nat) {
    n < |s.calls| && (s.calls[n].progress.Handling? || s.calls[n].progress.Handled?)
  }

  ghost predicate IdsInOrder(s: State) {
    && (forall m, n :: 0 <= m < n < |s.calls| && s.calls[m].id == s.calls[n].id ==> s.calls[m].progress.Done?)
    && (forall id :: id in s.table.calls ==> Holds(s, s.table.calls[id]) && s.calls[s.table.calls[id]].id == id)
    && (forall n: nat :: Holds(s, n) ==> s.calls[n].id in s.table.calls && s.table.calls[s.calls[n].id] == n)
  }

  ghost predicate OutputInOrder(s: State) {
    && (forall i :: 0 <= i < |s.output| && !s.output[i].Request? ==>
          s.output[i].call < |s.calls| && s.output[i].id == s.calls[s.output[i].call].id)
    && (forall i, j | 0 <= i < j < |s.output| && !s.output[i].Request? && !s.output[j].Request? ::
          s.output[i].id == s.output[j].id ==> s.output[i].call <= s.output[j].call)
  }

  /** A step other than these two leaves the entries alone. */
  lemma OtherStepsKeepEntries(s: State, e: Event)
    requires Enabled(s, e) && !e.ReceiveRequest? && !e.Unregister?
    ensures var t := Apply(s, e);
            && t.table.calls == s.table.calls && |t.calls| == |s.calls|
            && forall n: nat :: n < |s.calls| ==>
                 && t.calls[n].id == s.calls[n].id && (Holds(t, n) <==> Holds(s, n))
                 && (s.calls[n].progress.Done? ==> t.calls[n].progress.Done?)
  {
  }

  lemma UnregisterKeepsIds(s: State, n: nat)
    requires IdsInOrder(s) && Enabled(s, Unregister(n))
    ensures IdsInOrder(Apply(s, Unregister(n)))
  {
    assert Holds(s, n);
  }

  lemma StepKeepsIds(s: State, e: Event)
    requires IdsInOrder(s) && Enabled(s, e) && FreshId(s, e)
    ensures IdsInOrder(Apply(s, e))
  {
    if e.ReceiveRequest? {
      RequestKeepsIds(s, e.id);
    } else if e.Unregister? {
      UnregisterKeepsIds(s, e.n);
    } else {
      hide Apply;
      OtherStepsKeepEntries(s, e);
    }
  }

  lemma RequestKeepsIds(s: State, id: nat)
    requires IdsInOrder(s) && Enabled(s, ReceiveRequest(id)) && FreshId(s, ReceiveRequest(id))
    ensures IdsInOrder(Apply(s, ReceiveRequest(id)))
  {
    var t := Apply(s, ReceiveRequest(id));
    assert forall n: nat :: Holds(s, n) ==> InFlight(s, n) && s.calls[n].id != id;
    assert forall n: nat :: Holds(t, n) <==> Holds(s, n) || n == |s.calls|;
  }

  /** A frame other than a request is written by a call in flight, under its id. */
  predicate WrittenInFlight(s: State, f: Frame) {
    !f.Request? ==> InFlight(s, f.call) && f.id == s.calls[f.call].id
  }

  lemma StepWrites(s: State, e: Event)
    requires Enabled(s, e)
    ensures var t := Apply(s, e);
            && |s.calls| <= |t.calls| && (forall n: nat :: n < |s.calls| ==> t.calls[n].id == s.calls[n].id)
            && (t.output == s.output
                || (t.output != [] && t.output[..|t.output| - 1] == s.output
                   && WrittenInFlight(s, t.output[|t.output| - 1])))
  {
  }

  lemma StepKeepsOrder(s: State, e: Event)
    requires IdsInOrder(s) && OutputInOrder(s) && Enabled(s, e)
    ensures OutputInOrder(Apply(s, e))
  {
    hide Apply;
    StepWrites(s, e);
    var out := Apply(s, e).output;
    assert forall i :: 0 <= i < |s.output| ==> out[i] == s.output[i];
  }

  lemma {:induction false} RunKeepsOrder(s: State, events: seq<Event>)
    requires IdsInOrder(s) && OutputInOrder(s) && Runs(s, events, true)
    ensures IdsInOrder(After(s, events, true)) && OutputInOrder(After(s, events, true))
    decreases |events|
  {
    if events != [] {
      StepKeepsIds(s, events[0]);
      StepKeepsOrder(s, events[0]);
      RunKeepsOrder(Apply(s, events[0]), events[1..]);
    }
  }

  /** When OLP reuses no id in flight, the frames of one id never interleave two
      calls, so OLP can tell which call each frame belongs to. */
  lemma FramesOfAnIdNeverInterleave(events: seq<Event>, i: nat, j: nat)
    requires Runs(Init(), events, true)
    requires var out := After(Init(), events, true).output;
             i < j < |out| && !out[i].Request? && !out[j].Request? && out[i].id == out[j].id
    ensures var out := After(Init(), events, true).output;
            && out[i].call <= out[j].call
            && (out[i].Response? ==> out[i].call < out[j].call)
  {
    var s := After(Init(), events, true);
    RunKeepsOrder(Init(), events);
    RunKeepsCalls(Init(), events, true);
    if s.output[i].Response? && s.output[i].call == s.output[j].call {
      assert CallAgrees(s, s.output[i].call);
      ResponseIsLast(s.output, i, j);
    }
  }

  lemma {:induction false} ResponseIsLast(output: seq<Frame>, i: nat, j: nat)
    requires i < j < |output| && output[i].Response? && !output[j].Request? && output[i].call == output[j].call
    ensures !Parts(Of(output, output[i].call)) && !Complete(Of(output, output[i].call))
  {
    var n, front := output[i].call, output[..|output| - 1];
    if j < |output| - 1 {
      ResponseIsLast(front, i, j);
      assert front[i] == output[i];
      var was, now := Of(front, n), Of(output, n);
      assert now == was || now[..|now| - 1] == was;
      assert forall f :: f in was ==> f in now;
    } else {
      Among(front, i);
      var now := Of(output, n);
      assert now[..|now| - 1] == Of(front, n);
      assert output[i] in now;
    }
  }

  lemma {:induction false} Among(output: seq<Frame>, i: nat)
    requires i < |output| && !output[i].Request?
    ensures output[i] in Of(output, output[i].call)
  {
    if i < |output| - 1 {
      Among(output[..|output| - 1], i);
    }
  }

  // Cancellation: which calls a cancel frame can reach, whether or not the peer
  // reuses ids.

  /** The entry of the call's id leads to the call. */
  predicate Owns(s: State, n: nat) {
    n < |s.calls| && s.calls[n].id in s.table.calls && s.table.calls[s.calls[n].id] == n
  }

  /** The step overwrites or deletes the entry of `id`. */
  predicate Disturbs(e: Event, calls: seq<Call>, id: nat) {
    e == ReceiveRequest(id) || (e.Unregister? && e.n < |calls| && calls[e.n].id == id)
  }

  /** No further request with the id, and no call with the id unregistered. */
  predicate Undisturbed(events: seq<Event>, calls: seq<Call>, id: nat) {
    forall e :: e in events ==> !Disturbs(e, calls, id)
  }

  predicate SameIds(calls: seq<Call>, calls': seq<Call>) {
    |calls| <= |calls'| && forall n :: 0 <= n < |calls| ==> calls'[n].id == calls[n].id
  }

  lemma StepKeepsCallIds(s: State, e: Event)
    requires Enabled(s, e)
    ensures SameIds(s.calls, Apply(s, e).calls)
    ensures |Apply(s, e).calls| > |s.calls| ==>
              e.ReceiveRequest? && |Apply(s, e).calls| == |s.calls| + 1 && Apply(s, e).calls[|s.calls|].id == e.id
  {
  }

  lemma {:induction false} RunKeepsCallIds(s: State, events: seq<Event>, strict: bool)
    requires Runs(s, events, strict)
    ensures SameIds(s.calls, After(s, events, strict).calls)
    decreases |events|
  {
    hide Enabled, Apply;
    if events != [] {
      StepKeepsCallIds(s, events[0]);
      RunKeepsCallIds(Apply(s, events[0]), events[1..], strict);
    }
  }

  lemma StepKeepsOwner(s: State, e: Event, n: nat)
    requires Enabled(s, e) && n < |s.calls|
    ensures Owns(Apply(s, e), n) <==> Owns(s, n) && !Disturbs(e, s.calls, s.calls[n].id)
  {
  }

  /** A call keeps its entry through a run exactly when nothing disturbs it. */
  lemma {:induction false} RunKeepsOwner(s: State, events: seq<Event>, strict: bool, n: nat)
    requires Runs(s, events, strict) && n < |s.calls|
    ensures var t := After(s, events, strict);
            Owns(t, n) <==> Owns(s, n) && Undisturbed(events, t.calls, s.calls[n].id)
    decreases |events|
  {
    hide Apply, Owns;
    if events != [] {
      var e, id, t := events[0], s.calls[n].id, After(s, events, strict);
      StepKeepsCallIds(s, e);
      StepKeepsOwner(s, e, n);
      RunKeepsCallIds(s, events, strict);
      RunKeepsOwner(Apply(s, e), events[1..], strict, n);
      assert Disturbs(e, s.calls, id) <==> Disturbs(e, t.calls, id);
      assert forall f :: f in events <==> f == e || f in events[1..];
    }
  }

  /** Where in a run a call was made. */
  lemma {:induction false} FindRequest(s: State, events: seq<Event>, strict: bool, n: nat)
      returns (before: seq<Event>, later: seq<Event>)
    requires Runs(s, events, strict) && |s.calls| <= n < |After(s, events, strict).calls|
    ensures var id := After(s, events, strict).calls[n].id;
            && events == before + [ReceiveRequest(id)] + later
            && Runs(s, before, strict) && |After(s, before, strict).calls| == n
            && Enabled(After(s, before, strict), ReceiveRequest(id))
            && var made := Apply(After(s, before, strict), ReceiveRequest(id));
            && Runs(made, later, strict) && After(made, later, strict) == After(s, events, strict)
    decreases |events|
  {
    hide Apply;
    var e, t := events[0], Apply(s, events[0]);
    StepKeepsCallIds(s, e);
    if n < |t.calls| {
      RunKeepsCallIds(t, events[1..], strict);
      before, later := [], events[1..];
      assert Runs(s, before, strict) && After(s, before, strict) == s;
    } else {
      before, later := FindRequest(t, events[1..], strict, n);
      var longer := [e] + before;
      assert longer[1..] == before;
      before := longer;
    }
  }

  lemma MadeOwns(s: State, id: nat)
    requires Enabled(s, ReceiveRequest(id))
    ensures Owns(Apply(s, ReceiveRequest(id)), |s.calls|)
  {
  }

  lemma CancelReachesTheOwner(s: State, n: nat)
    requires n < |s.calls| && s.reader.Idle?
    ensures var t := Apply(s, ReceiveCancel(s.calls[n].id));
            && (Owns(s, n) ==> t.calls == s.calls[n := s.calls[n].(cancelled := true)])
            && (!Owns(s, n) ==> t.calls[n] == s.calls[n])
  {
  }

  /** In every run, whatever ids the peer reuses, a cancel frame cancels a call
      that is not cancelled yet if and only if, since the request that made the
      call, no further request with its id came in and no call with its id
      unregistered. It then cancels no other call. */
  lemma CancelReachesExactlyTheUndisturbed(events: seq<Event>, strict: bool, n: nat)
      returns (before: seq<Event>, later: seq<Event>)
    requires Runs(Init(), events, strict) && n < |After(Init(), events, strict).calls|
    requires After(Init(), events, strict).reader.Idle?
    ensures var s := After(Init(), events, strict);
            var id := s.calls[n].id;
            var t := Apply(s, ReceiveCancel(id));
            && events == before + [ReceiveRequest(id)] + later
            && Runs(Init(), before, strict) && |After(Init(), before, strict).calls| == n
            && (!s.calls[n].cancelled ==> (t.calls[n].cancelled <==> Undisturbed(later, s.calls, id)))
            && (Undisturbed(later, s.calls, id) ==> t.calls == s.calls[n := s.calls[n].(cancelled := true)])
            && (Owns(s, n) <==> Undisturbed(later, s.calls, id))
  {
    before, later := FindRequest(Init(), events, strict, n);
    var s := After(Init(), events, strict);
    hide Apply, Owns, Undisturbed, Runs, After;
    var id, made := s.calls[n].id, Apply(After(Init(), before, strict), ReceiveRequest(s.calls[n].id));
    MadeOwns(After(Init(), before, strict), id);
    StepKeepsCallIds(After(Init(), before, strict), ReceiveRequest(id));
    assert n < |made.calls| by { OwnerIsACall(made, n); }
    RunKeepsCallIds(made, later, strict);
    RunKeepsOwner(made, later, strict, n);
    CancelReachesTheOwner(s, n);
  }

  lemma OwnerIsACall(s: State, n: nat)
    requires Owns(s, n)
    ensures n < |s.calls|
  {
  }

  /** So when the peer reuses no id in flight, a cancellation of a running call
      reaches that call and no other. */
  lemma CancelReachesItsCall(events: seq<Event>, n: nat)
    requires Runs(Init(), events, true) && Running(After(Init(), events, true), n)
    requires After(Init(), events, true).reader.Idle?
    ensures var s := After(Init(), events, true);
            Apply(s, ReceiveCancel(s.calls[n].id)).calls == s.calls[n := s.calls[n].(cancelled := true)]
  {
    RunKeepsOrder(Init(), events);
    assert Holds(After(Init(), events, true), n);
    hide Apply;
    var _, _ := CancelReachesExactlyTheUndisturbed(events, true, n);
  }

  /** A peer that reuses an id in flight loses the cancellation of the older call
      at once: the newer request overwrites the entry. */
  lemma ReusedIdLosesTheCancel(id: nat)
    ensures var run := [ReceiveRequest(id), ReceiveRequest(id)];
            && Runs(Init(), run, false)
            && Running(After(Init(), run, false), 0)
            && Enabled(After(Init(), run, false), ReceiveCancel(id))
            && !Apply(After(Init(), run, false), ReceiveCancel(id)).calls[0].cancelled
  {
    var run := [ReceiveRequest(id), ReceiveRequest(id)];
    var s1 := Apply(Init(), run[0]);
    var s2 := Apply(s1, run[1]);
    assert run[1..] == [ReceiveRequest(id)];
    assert Runs(s2, [], false);
    assert Runs(s1, run[1..], false) && After(s1, run[1..], false) == s2;
  }

  /** And that of the newer call once the older one unregisters, which deletes
      the entry they share. */
  lemma ReusedIdLosesTheNewerCancelToo(id: nat)
    ensures var run := [ReceiveRequest(id), ReceiveRequest(id), Handle(0, 0, 0), Unregister(0)];
            && Runs(Init(), run, false)
            && Running(After(Init(), run, false), 1)
            && Enabled(After(Init(), run, false), ReceiveCancel(id))
            && !Apply(After(Init(), run, false), ReceiveCancel(id)).calls[1].cancelled
  {
    var run := [ReceiveRequest(id), ReceiveRequest(id), Handle(0, 0, 0), Unregister(0)];
    var s1 := Apply(Init(), run[0]);
    var s2 := Apply(s1, run[1]);
    var s3 := Apply(s2, run[2]);
    var s4 := Apply(s3, run[3]);
    assert run[1..][1..] == run[2..] && run[2..][1..] == run[3..] && run[3..][1..] == [];
    assert Runs(s4, [], false) && After(s4, [], false) == s4;
    assert Runs(s3, run[3..], false) && After(s3, run[3..], false) == s4;
    assert Runs(s2, run[2..], false) && After(s2, run[2..], false) == s4;
    assert Runs(s1, run[1..], false) && After(s1, run[1..], false) == s4;
  }

  /** The session's mutex-guarded maps, updated in place. Each method is one
      critical section of plugin/stdio.go. */
  class Session {
    var calls: map<nat, nat>
    var requests: map<nat, nat>
    var next: nat
    var cancelled: set<nat>

    function View(): Table
      reads this
    {
      Table(calls, requests, next)
    }

    constructor ()
      ensures View() == Init().table && Shows(Init())
    {
      calls, requests, next, cancelled := map[], map[], 0, {};
    }

    method Register(id: nat, call: nat)
      modifies this`calls
      ensures View() == Registered(old(View()), id, call)
    {
      calls := calls[id := call];
    }

    /** The channel waiting for a response frame's id, at most once. */
    method Take(id: nat) returns (waiting: Option<nat>)
      modifies this`requests
      ensures waiting == if id in old(requests) then Some(old(requests)[id]) else None
      ensures View() == Forgotten(old(View()), id)
    {
      waiting := if id in requests then Some(requests[id]) else None;
      requests := requests - {id};
    }

    /** The fields stand for the table of a state and its cancelled contexts. */
    ghost predicate Shows(s: State)
      reads this
    {
      && View() == s.table && (forall id :: id in s.table.calls ==> s.table.calls[id] < |s.calls|)
      && (forall n: nat :: n in cancelled <==> n < |s.calls| && s.calls[n].cancelled)
    }

    /** A cancel frame cancels the context of the call registered under its id,
        and of no other: the step ReceiveCancel of the machine. */
    method Cancel(id: nat, ghost s: State)
      requires Shows(s) && Enabled(s, ReceiveCancel(id))
      modifies this`cancelled
      ensures Shows(Apply(s, ReceiveCancel(id)))
    {
      if id in calls {
        cancelled := cancelled + {calls[id]};
      }
    }

    method Unregister(id: nat)
      modifies this`calls
      ensures View() == Unregistered(old(View()), id)
    {
      calls := calls - {id};
    }

    method BeginHostCall(channel: nat) returns (id: nat)
      modifies this`next, this`requests
      ensures id == NextId(old(View()))
      ensures View() == Requested(old(View()), channel)
    {
      next := (next + 1) % UINT64;
      id := next;
      requests := requests[id := channel];
    }

    method Forget(id: nat)
      modifies this`requests
      ensures View() == Forgotten(old(View()), id)
    {
      requests := requests - {id};
    }
  }
}
