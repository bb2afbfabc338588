/** What the frames of plugin/stdio.go carry: everything a session writes and
    every reply a host call returns is told from the events of the run alone. */
module StdioRecord {
  import opened Common
  import opened Stdio

  /** The ids of the requests received, in order. */
  function Received(events: seq<Event>): seq<nat> {
    if events == [] then []
    else
      var e := events[|events| - 1];
      Received(events[..|events| - 1]) + if e.ReceiveRequest? then [e.id] else []
  }

  /** The payloads that call `n` sent as parts and that fit a frame, in order. */
  function Sent(events: seq<Event>, n: nat): seq<nat> {
    if events == [] then []
    else
      var e := events[|events| - 1];
      Sent(events[..|events| - 1], n) + if e.SendPart? && e.n == n && e.ok && e.size < 0x10_0000 then [e.payload]
        else []
  }

  /** The host calls whose request frame was written, in order. */
  function Asked(events: seq<Event>): seq<nat> {
    if events == [] then []
    else
      var e := events[|events| - 1];
      Asked(events[..|events| - 1]) + if e.HostSend? && e.ok then [e.h] else []
  }

  datatype Outcome = Outcome(result: nat, size: nat)

  /** What the handler of call `n` returned, and the length of its frame. */
  function HandledAs(events: seq<Event>, n: nat): Option<Outcome> {
    if events == [] then None
    else
      var e := events[|events| - 1];
      if e.Handle? && e.n == n then Some(Outcome(e.result, e.size)) else HandledAs(events[..|events| - 1], n)
  }

  /** The payloads of the parts of call `n` among frames. */
  function PartsOf(output: seq<Frame>, n: nat): seq<nat> {
    if output == [] then []
    else
      var f := output[|output| - 1];
      PartsOf(output[..|output| - 1], n) + if f.Part? && f.call == n then [f.payload] else []
  }

  /** The ids of the request frames among frames. */
  function RequestIds(output: seq<Frame>): seq<nat> {
    if output == [] then []
    else
      var f := output[|output| - 1];
      RequestIds(output[..|output| - 1]) + if f.Request? then [f.id] else []
  }

  function Carried(o: Outcome): Option<nat> {
    if o.size < 0x10_0000 then Some(o.result) else None
  }

  // One part of the record at a time.

  predicate CallsRecorded(s: State, past: seq<Event>) {
    && |s.calls| == |Received(past)|
    && (forall n :: 0 <= n < |s.calls| ==> s.calls[n].id == Received(past)[n])
    && (forall n :: 0 <= n < |s.calls| && s.calls[n].cancelled ==> ReceiveCancel(s.calls[n].id) in past)
  }

  lemma StepRecordsCalls(s: State, past: seq<Event>, e: Event)
    requires CallsRecorded(s, past) && (forall id :: id in s.table.calls ==> CallOf(s, id)) && Enabled(s, e)
    ensures CallsRecorded(Apply(s, e), past + [e])
  {
    assert (past + [e])[..|past|] == past;
  }

  /** The entry of `id` is a call with that id. */
  predicate CallOf(s: State, id: nat)
    requires id in s.table.calls
  {
    s.table.calls[id] < |s.calls| && s.calls[s.table.calls[id]].id == id
  }

  lemma StepKeepsEntries(s: State, e: Event)
    requires (forall id :: id in s.table.calls ==> CallOf(s, id)) && Enabled(s, e)
    ensures var t := Apply(s, e); forall id :: id in t.table.calls ==> CallOf(t, id)
  {
  }

  ghost predicate ResultsRecorded(s: State, past: seq<Event>) {
    && (forall n: nat :: HandledAs(past, n).Some? ==> n < |s.calls| && !s.calls[n].progress.Handling?)
    && (forall n: nat :: n < |s.calls| && (s.calls[n].progress.Handled? || s.calls[n].progress.Answering?) ==>
          HandledAs(past, n) == Some(Outcome(s.calls[n].progress.result, s.calls[n].progress.size)))
    && (forall n, result, size :: Handle(n, result, size) in past ==> HandledAs(past, n) == Some(Outcome(result, size)))
  }

  lemma HandledNext(past: seq<Event>, e: Event, n: nat)
    ensures HandledAs(past + [e], n) ==
            if e.Handle? && e.n == n then Some(Outcome(e.result, e.size)) else HandledAs(past, n)
  {
    assert (past + [e])[..|past|] == past;
  }

  lemma StepRecordsResults(s: State, past: seq<Event>, e: Event)
    requires ResultsRecorded(s, past) && Enabled(s, e)
    ensures ResultsRecorded(Apply(s, e), past + [e])
  {
    hide HandledAs;
    forall n: nat ensures HandledAs(past + [e], n) ==
                          if e.Handle? && e.n == n then Some(Outcome(e.result, e.size)) else HandledAs(past, n)
    {
      HandledNext(past, e, n);
    }
  }

  predicate ResponsesRecorded(output: seq<Frame>, past: seq<Event>) {
    forall f :: f in output && f.Response? ==>
      HandledAs(past, f.call).Some? && f.result == Carried(HandledAs(past, f.call).value)
  }

  /** What a step writes. */
  function Written(s: State, e: Event): seq<Frame>
    requires Enabled(s, e)
  {
    match e
    case HostSend(h, ok) => if ok then [Frame.Request(s.hosts[h].id)] else []
    case SendPart(n, payload, size, ok) => if ok && size < 0x10_0000 then [Part(n, s.calls[n].id, payload)] else []
    case Answer(n, ok) =>
      var p := s.calls[n].progress;
      if ok then [Response(n, s.calls[n].id, Carried(Outcome(p.result, p.size)))] else []
    case _ => []
  }

  lemma StepWritesExactly(s: State, e: Event)
    requires Enabled(s, e)
    ensures Apply(s, e).output == s.output + Written(s, e)
  {
  }

  lemma StepRecordsResponses(s: State, past: seq<Event>, e: Event)
    requires ResultsRecorded(s, past) && ResponsesRecorded(s.output, past) && Enabled(s, e)
    ensures ResponsesRecorded(Apply(s, e).output, past + [e])
  {
    hide Apply, HandledAs;
    StepWritesExactly(s, e);
    forall f | f in Apply(s, e).output && f.Response?
      ensures HandledAs(past + [e], f.call).Some? && f.result == Carried(HandledAs(past + [e], f.call).value)
    {
      HandledNext(past, e, f.call);
    }
  }

  ghost predicate PartsRecorded(output: seq<Frame>, past: seq<Event>) {
    forall n: nat :: PartsOf(output, n) == Sent(past, n)
  }

  lemma PartsNext(output: seq<Frame>, f: Frame, n: nat)
    ensures PartsOf(output + [f], n) == PartsOf(output, n) + if f.Part? && f.call == n then [f.payload] else []
    ensures RequestIds(output + [f]) == RequestIds(output) + if f.Request? then [f.id] else []
  {
    assert (output + [f])[..|output|] == output;
  }

  lemma EventNext(past: seq<Event>, e: Event, n: nat)
    ensures Sent(past + [e], n) ==
            Sent(past, n) + if e.SendPart? && e.n == n && e.ok && e.size < 0x10_0000 then [e.payload] else []
    ensures Asked(past + [e]) == Asked(past) + if e.HostSend? && e.ok then [e.h] else []
  {
    assert (past + [e])[..|past|] == past;
  }

  lemma StepRecordsParts(s: State, past: seq<Event>, e: Event)
    requires PartsRecorded(s.output, past) && Enabled(s, e)
    ensures PartsRecorded(Apply(s, e).output, past + [e])
  {
    hide Apply, PartsOf, Sent;
    StepWritesExactly(s, e);
    var out := Written(s, e);
    forall n: nat ensures PartsOf(Apply(s, e).output, n) == Sent(past + [e], n) {
      EventNext(past, e, n);
      if out != [] {
        assert out == [out[0]];
        PartsNext(s.output, out[0], n);
      } else {
        assert s.output + [] == s.output;
      }
    }
  }

  predicate RequestsRecorded(output: seq<Frame>, past: seq<Event>) {
    && |RequestIds(output)| == |Asked(past)|
    && forall i :: 0 <= i < |Asked(past)| ==> RequestIds(output)[i] == (Asked(past)[i] + 1) % UINT64
  }

  lemma StepRecordsRequests(s: State, past: seq<Event>, e: Event)
    requires HostInv(s) && RequestsRecorded(s.output, past) && Enabled(s, e)
    ensures RequestsRecorded(Apply(s, e).output, past + [e])
  {
    hide Apply, RequestIds, Asked;
    if e.HostSend? {
      assert HostAgrees(s, e.h);
    }
    hide HostInv, HostAgrees;
    StepWritesExactly(s, e);
    var out := Written(s, e);
    EventNext(past, e, 0);
    if out != [] {
      assert out == [out[0]];
      PartsNext(s.output, out[0], 0);
    } else {
      assert s.output + [] == s.output;
    }
  }

  /** Every reply on its way, or returned, came in a response frame. */
  predicate RepliesRecorded(s: State, past: seq<Event>) {
    && (s.reader.Handing? ==> ReceiveResponse(s.reader.reply) in past)
    && (forall h, i :: 0 <= h < |s.hosts| && 0 <= i < |s.hosts[h].buffer| ==>
          ReceiveResponse(s.hosts[h].buffer[i]) in past)
    && (forall h :: 0 <= h < |s.hosts| && s.hosts[h].stage.Returned? && s.hosts[h].stage.a.Replied? ==>
          ReceiveResponse(s.hosts[h].stage.a.reply) in past)
    && (forall h :: 0 <= h < |s.hosts| && s.hosts[h].stage.Forgetting? ==> !s.hosts[h].stage.a.Replied?)
  }

  lemma StepRecordsReplies(s: State, past: seq<Event>, e: Event)
    requires RepliesRecorded(s, past) && Enabled(s, e)
    ensures RepliesRecorded(Apply(s, e), past + [e])
  {
  }

  // The whole record.

  ghost predicate Records(s: State, past: seq<Event>) {
    && HostInv(s) && CallsRecorded(s, past) && (forall id :: id in s.table.calls ==> CallOf(s, id))
    && ResultsRecorded(s, past) && ResponsesRecorded(s.output, past) && PartsRecorded(s.output, past)
    && RequestsRecorded(s.output, past) && RepliesRecorded(s, past)
  }

  lemma StepRecords(s: State, past: seq<Event>, e: Event)
    requires Records(s, past) && Enabled(s, e)
    ensures Records(Apply(s, e), past + [e])
  {
    hide HostInv, CallsRecorded, CallOf, ResultsRecorded, ResponsesRecorded, PartsRecorded, RequestsRecorded,
      RepliesRecorded, Apply;
    StepKeepsHosts(s, e);
    StepRecordsCalls(s, past, e);
    StepKeepsEntries(s, e);
    StepRecordsResults(s, past, e);
    StepRecordsResponses(s, past, e);
    StepRecordsParts(s, past, e);
    StepRecordsRequests(s, past, e);
    StepRecordsReplies(s, past, e);
  }

  lemma {:induction false} RunRecords(s: State, past: seq<Event>, events: seq<Event>, strict: bool)
    requires Records(s, past) && Runs(s, events, strict)
    ensures Records(After(s, events, strict), past + events)
    decreases |events|
  {
    hide Records, Enabled, Apply;
    if events == [] {
      assert past + events == past;
    } else {
      StepRecords(s, past, events[0]);
      RunRecords(Apply(s, events[0]), past + [events[0]], events[1..], strict);
      assert past + events == (past + [events[0]]) + events[1..];
    }
  }

  lemma InitRecords()
    ensures Records(Init(), [])
  {
  }

  /** In every run, the response of a call carries what the run's own Handle
      event of that call returned if its frame is below 1 MiB, and the size error
      otherwise; a handler returns once. */
  lemma ResponseCarriesTheResult(events: seq<Event>, strict: bool, n: nat, result: nat, size: nat)
    requires Runs(Init(), events, strict) && Handle(n, result, size) in events
    ensures var s := After(Init(), events, strict);
            && (forall f :: f in s.output && f.Response? && f.call == n ==>
                  f.result == if size < 0x10_0000 then Some(result) else None)
            && forall other, length :: Handle(n, other, length) in events ==> other == result && length == size
  {
    InitRecords();
    RunRecords(Init(), [], events, strict);
    assert [] + events == events;
    hide Runs, After, HandledAs;
    assert HandledAs(events, n) == Some(Outcome(result, size));
  }

  /** No call is answered before its handler returned. */
  lemma ResponseFollowsItsHandler(events: seq<Event>, strict: bool, f: Frame)
    requires Runs(Init(), events, strict) && f in After(Init(), events, strict).output && f.Response?
    ensures exists result, size :: Handle(f.call, result, size) in events
  {
    InitRecords();
    RunRecords(Init(), [], events, strict);
    assert [] + events == events;
    hide Runs, After;
    assert HandledAs(events, f.call).Some?;
    HandledIsAnEvent(events, f.call);
  }

  lemma {:induction false} HandledIsAnEvent(events: seq<Event>, n: nat)
    requires HandledAs(events, n).Some?
    ensures var o := HandledAs(events, n).value; Handle(n, o.result, o.size) in events
  {
    var e := events[|events| - 1];
    if !(e.Handle? && e.n == n) {
      HandledIsAnEvent(events[..|events| - 1], n);
    }
  }

  /** In every run, the parts of a call are the payloads it sent that fit a frame,
      in order; the request frames are those of the host calls whose write went
      well, in order, each under its host call's id; and call n has the id of
      the n-th request received. */
  lemma FramesCarryWhatWasSent(events: seq<Event>, strict: bool, n: nat)
    requires Runs(Init(), events, strict)
    ensures var s := After(Init(), events, strict);
            && PartsOf(s.output, n) == Sent(events, n)
            && |RequestIds(s.output)| == |Asked(events)|
            && (forall i :: 0 <= i < |Asked(events)| ==> RequestIds(s.output)[i] == (Asked(events)[i] + 1) % UINT64)
            && |s.calls| == |Received(events)| && (n < |s.calls| ==> s.calls[n].id == Received(events)[n])
  {
    InitRecords();
    RunRecords(Init(), [], events, strict);
    assert [] + events == events;
    hide Runs, After, PartsOf, Sent, RequestIds, Asked, Received;
  }

  /** In every run, a host call that returned a reply returns one, payload
      included, that came in a response frame; and only a call whose id a cancel
      frame named is cancelled. */
  lemma RepliesCameFromThePeer(events: seq<Event>, strict: bool, h: nat, n: nat)
    requires Runs(Init(), events, strict)
    ensures var s := After(Init(), events, strict);
            && (Host(s, h) && s.hosts[h].stage.Returned? && s.hosts[h].stage.a.Replied? ==>
                  ReceiveResponse(s.hosts[h].stage.a.reply) in events)
            && (n < |s.calls| && s.calls[n].cancelled ==> ReceiveCancel(s.calls[n].id) in events)
  {
    InitRecords();
    RunRecords(Init(), [], events, strict);
    assert [] + events == events;
    hide Runs, After;
  }
}
