/** The tool-continuation client of continuation/olp_continuation.py: a stream of
    fragments becomes one assistant message, and a completed turn becomes the
    next request. An absent or empty string field is "". */
module Continuation {
  import opened Common

  datatype Result<+T> = Ok(value: T) | Failed

  datatype Call = Call(id: string, name: string, arguments: string)

  datatype Message =
    | Plain(role: string, content: string)
    | Assistant(content: string, calls: seq<Call>)
    | Tool(call: string, content: string)

  /** One fragment of a tool call. */
  datatype Delta = Delta(index: Option<int>, kind: string, part: Call)

  datatype Choice = Choice(content: string, deltas: seq<Delta>, finish: string)

  /** A chunk; `negotiated` says whether it carries the extension's version. */
  datatype Chunk = Chunk(
    negotiated: bool, observation: Option<nat>, choice: Option<Choice>,
    ready: bool, handle: Option<string>, nativeUsage: Option<nat>)

  datatype Turn = Turn(handle: string, assistant: Message, observations: seq<nat>, finish: string, nativeUsage: nat)

  /** What the loop over the stream has gathered. */
  datatype Gathered = Gathered(
    text: string, calls: map<nat, Call>, observations: seq<nat>,
    handle: string, finish: string, nativeUsage: Option<nat>, terminal: bool)

  function Nothing(): Gathered {
    Gathered("", map[], [], "", "", None, false)
  }

  function Joined(a: Call, b: Call): Call {
    Call(a.id + b.id, a.name + b.name, a.arguments + b.arguments)
  }

  predicate ValidDelta(d: Delta) {
    d.index.Some? && d.index.value >= 0 && (d.kind == "" || d.kind == "function")
  }

  function AddDelta(calls: map<nat, Call>, d: Delta): map<nat, Call>
    requires ValidDelta(d)
  {
    var i: nat := d.index.value;
    calls[i := Joined(if i in calls then calls[i] else Call("", "", ""), d.part)]
  }

  function AddDeltas(calls: map<nat, Call>, deltas: seq<Delta>): Result<map<nat, Call>> {
    if deltas == [] then Ok(calls)
    else
      var before := AddDeltas(calls, deltas[..|deltas| - 1]);
      var d := deltas[|deltas| - 1];
      if before.Failed? || !ValidDelta(d) then Failed else Ok(AddDelta(before.value, d))
  }

  /** One chunk of the loop in stream_turn. */
  function Absorb(g: Gathered, c: Chunk): Result<Gathered> {
    if !c.negotiated || (c.observation.Some? && g.terminal) then Failed
    else
      var g1 := if c.observation.Some? then g.(observations := g.observations + [c.observation.value]) else g;
      if c.choice.None? then Ok(g1)
      else
        var calls := AddDeltas(g.calls, c.choice.value.deltas);
        if calls.Failed? then Failed
        else
          var g2 := g1.(text := g.text + c.choice.value.content, calls := calls.value);
          if c.choice.value.finish == "" then Ok(g2)
          else if g.terminal || !c.ready || c.handle.None? then Failed
          else Ok(g2.(finish := c.choice.value.finish, handle := c.handle.value, nativeUsage := c.nativeUsage,
            terminal := true))
  }

  function AbsorbAll(chunks: seq<Chunk>): Result<Gathered> {
    if chunks == [] then Ok(Nothing())
    else
      var before := AbsorbAll(chunks[..|chunks| - 1]);
      if before.Failed? then Failed else Absorb(before.value, chunks[|chunks| - 1])
  }

  predicate Complete(c: Call) {
    c.id != "" && c.name != "" && c.arguments != ""
  }

  /** Indices 0, 1, ... without a gap. */
  predicate Contiguous(calls: map<nat, Call>) {
    forall i :: 0 <= i < |calls| ==> i in calls
  }

  predicate InOrder(calls: map<nat, Call>) {
    Contiguous(calls) && forall i :: i in calls ==> Complete(calls[i])
  }

  function Ordered(calls: map<nat, Call>): seq<Call>
    requires Contiguous(calls)
  {
    seq(|calls|, i requires 0 <= i < |calls| => calls[i])
  }

  function Finished(g: Gathered): Result<Turn> {
    if !g.terminal || g.handle == "" || g.nativeUsage.None? || !InOrder(g.calls)
      || (g.finish == "tool_calls") != (g.calls != map[]) then Failed
    else Ok(Turn(g.handle, Assistant(g.text, Ordered(g.calls)), g.observations, g.finish, g.nativeUsage.value))
  }

  function StreamTurn(chunks: seq<Chunk>): Result<Turn> {
    var g := AbsorbAll(chunks);
    if g.Failed? then Failed else Finished(g.value)
  }

  // The loops.

  method AbsorbChunk(g: Gathered, c: Chunk) returns (r: Result<Gathered>)
    ensures r == Absorb(g, c)
  {
    if !c.negotiated { return Failed; }
    var g1 := g;
    if c.observation.Some? {
      if g.terminal { return Failed; }
      g1 := g1.(observations := g1.observations + [c.observation.value]);
    }
    if c.choice.None? { return Ok(g1); }
    var choice := c.choice.value;
    g1 := g1.(text := g1.text + choice.content);
    var calls := g1.calls;
    for i := 0 to |choice.deltas|
      invariant AddDeltas(g.calls, choice.deltas[..i]) == Ok(calls)
    {
      assert choice.deltas[..i + 1][..i] == choice.deltas[..i];
      var d := choice.deltas[i];
      if !ValidDelta(d) {
        DeltasStayFailed(g.calls, choice.deltas, i + 1);
        return Failed;
      }
      calls := AddDelta(calls, d);
    }
    assert choice.deltas[..|choice.deltas|] == choice.deltas;
    g1 := g1.(calls := calls);
    if choice.finish != "" {
      if g1.terminal || !c.ready || c.handle.None? { return Failed; }
      g1 := g1.(finish := choice.finish, handle := c.handle.value, nativeUsage := c.nativeUsage, terminal := true);
    }
    return Ok(g1);
  }

  lemma {:induction false} DeltasStayFailed(calls: map<nat, Call>, deltas: seq<Delta>, i: nat)
    requires i <= |deltas| && AddDeltas(calls, deltas[..i]).Failed?
    ensures AddDeltas(calls, deltas).Failed?
    decreases |deltas| - i
  {
    if i == |deltas| {
      assert deltas[..i] == deltas;
    } else {
      assert deltas[..i + 1][..i] == deltas[..i];
      DeltasStayFailed(calls, deltas, i + 1);
    }
  }

  lemma {:induction false} StreamStaysFailed(chunks: seq<Chunk>, i: nat)
    requires i <= |chunks| && AbsorbAll(chunks[..i]).Failed?
    ensures AbsorbAll(chunks).Failed?
    decreases |chunks| - i
  {
    if i == |chunks| {
      assert chunks[..i] == chunks;
    } else {
      assert chunks[..i + 1][..i] == chunks[..i];
      StreamStaysFailed(chunks, i + 1);
    }
  }

  /** The loop has moved the first calls from `rest` to `ordered`. */
  predicate Sorting(calls: map<nat, Call>, ordered: seq<Call>, rest: set<nat>) {
    && |ordered| + |rest| == |calls| && rest <= calls.Keys
    && (forall k :: k in calls ==> (k in rest <==> k >= |ordered|))
    && (forall i :: 0 <= i < |ordered| ==> i in calls && ordered[i] == calls[i] && Complete(calls[i]))
  }

  lemma SortingStarts(calls: map<nat, Call>)
    ensures Sorting(calls, [], calls.Keys)
  {
  }

  lemma SortingGoesOn(calls: map<nat, Call>, ordered: seq<Call>, rest: set<nat>)
    requires Sorting(calls, ordered, rest) && |ordered| in rest && Complete(calls[|ordered|])
    ensures Sorting(calls, ordered + [calls[|ordered|]], rest - {|ordered|})
  {
    hide Complete;
  }

  lemma SortingEnds(calls: map<nat, Call>, ordered: seq<Call>)
    requires Sorting(calls, ordered, {})
    ensures InOrder(calls) && ordered == Ordered(calls)
  {
    hide Complete;
  }

  /** The least index left is not the next one, so the next one is missing. */
  lemma SortingFindsAGap(calls: map<nat, Call>, ordered: seq<Call>, rest: set<nat>, index: nat)
    requires Sorting(calls, ordered, rest) && index in rest && index != |ordered|
    requires forall k :: k in rest ==> index <= k
    ensures !Contiguous(calls)
  {
    hide Complete;
    assert |rest| > 0;
    assert |ordered| !in calls;
  }

  /** The calls in index order, or none when an index is missing or a call is
      incomplete. */
  method SortCalls(calls: map<nat, Call>) returns (r: Result<seq<Call>>)
    ensures r == if InOrder(calls) then Ok(Ordered(calls)) else Failed
  {
    hide Complete, Contiguous, Ordered, Sorting;
    var ordered: seq<Call> := [];
    var rest := calls.Keys;
    SortingStarts(calls);
    while rest != {}
      invariant rest <= calls.Keys && Sorting(calls, ordered, rest)
      decreases rest
    {
      ghost var least := Least(rest);
      var index :| index in rest && forall k :: k in rest ==> index <= k;
      if index != |ordered| {
        SortingFindsAGap(calls, ordered, rest, index);
        return Failed;
      }
      if !Complete(calls[index]) {
        return Failed;
      }
      SortingGoesOn(calls, ordered, rest);
      ordered := ordered + [calls[index]];
      rest := rest - {index};
    }
    SortingEnds(calls, ordered);
    return Ok(ordered);
  }

  method ReadStream(chunks: seq<Chunk>) returns (r: Result<Turn>)
    ensures r == StreamTurn(chunks)
  {
    var g := Nothing();
    for i := 0 to |chunks|
      invariant AbsorbAll(chunks[..i]) == Ok(g)
    {
      assert chunks[..i + 1][..i] == chunks[..i];
      var next := AbsorbChunk(g, chunks[i]);
      if next.Failed? {
        StreamStaysFailed(chunks, i + 1);
        return Failed;
      }
      g := next.value;
    }
    assert chunks[..|chunks|] == chunks;
    if !g.terminal || g.handle == "" || g.nativeUsage.None? { return Failed; }
    var ordered := SortCalls(g.calls);
    if ordered.Failed? { return Failed; }
    if (g.finish == "tool_calls") != (ordered.value != []) { return Failed; }
    return Ok(Turn(g.handle, Assistant(g.text, ordered.value), g.observations, g.finish, g.nativeUsage.value));
  }

  // What a stream says, however it is cut up.

  function DeltasOf(c: Chunk): seq<Delta> {
    if c.choice.Some? then c.choice.value.deltas else []
  }

  /** All text, and all fragments, in the order they arrived. */
  function TextOf(chunks: seq<Chunk>): string {
    if chunks == [] then ""
    else
      var c := chunks[|chunks| - 1];
      TextOf(chunks[..|chunks| - 1]) + if c.choice.Some? then c.choice.value.content else ""
  }

  function Fragments(chunks: seq<Chunk>): seq<Delta> {
    if chunks == [] then [] else Fragments(chunks[..|chunks| - 1]) + DeltasOf(chunks[|chunks| - 1])
  }

  /** The fragments of one call put together, and which calls have any. */
  function CallAt(deltas: seq<Delta>, i: nat): Call {
    if deltas == [] then Call("", "", "")
    else
      var before, d := CallAt(deltas[..|deltas| - 1], i), deltas[|deltas| - 1];
      if d.index == Some(i) then Joined(before, d.part) else before
  }

  predicate Mentions(deltas: seq<Delta>, i: nat) {
    exists d :: d in deltas && d.index == Some(i)
  }

  /** A map of calls that says what the fragments say. */
  ghost predicate Says(calls: map<nat, Call>, deltas: seq<Delta>) {
    forall i: nat :: (i in calls <==> Mentions(deltas, i)) && (i in calls ==> calls[i] == CallAt(deltas, i))
  }

  lemma OneMoreDelta(calls: map<nat, Call>, deltas: seq<Delta>, d: Delta)
    requires ValidDelta(d) && Says(calls, deltas)
    ensures Says(AddDelta(calls, d), deltas + [d])
  {
    var k: nat := d.index.value;
    assert (deltas + [d])[..|deltas|] == deltas;
    forall i: nat ensures Mentions(deltas + [d], i) <==> Mentions(deltas, i) || i == k {
      assert d in deltas + [d];
      assert forall e :: e in deltas + [d] <==> e in deltas || e == d;
    }
    if k !in calls {
      UnmentionedIsEmpty(deltas, k);
    }
  }

  lemma {:induction false} UnmentionedIsEmpty(deltas: seq<Delta>, i: nat)
    requires !Mentions(deltas, i)
    ensures CallAt(deltas, i) == Call("", "", "")
  {
    if deltas != [] {
      var front, d := deltas[..|deltas| - 1], deltas[|deltas| - 1];
      assert d in deltas;
      assert forall e :: e in front ==> e in deltas;
      UnmentionedIsEmpty(front, i);
    }
  }

  lemma {:induction false} DeltasSay(calls: map<nat, Call>, before: seq<Delta>, deltas: seq<Delta>)
    requires Says(calls, before) && AddDeltas(calls, deltas).Ok?
    ensures Says(AddDeltas(calls, deltas).value, before + deltas)
  {
    if deltas == [] {
      assert before + deltas == before;
    } else {
      hide Says;
      var front, d := deltas[..|deltas| - 1], deltas[|deltas| - 1];
      DeltasSay(calls, before, front);
      OneMoreDelta(AddDeltas(calls, front).value, before + front, d);
      assert before + deltas == before + front + [d];
    }
  }

  /** However its text and its fragments are split and interleaved, an accepted
      stream gathers all text in order and, per index, all fragments in order. */
  lemma {:induction false} GatheredSays(chunks: seq<Chunk>)
    requires AbsorbAll(chunks).Ok?
    ensures AbsorbAll(chunks).value.text == TextOf(chunks) && Says(AbsorbAll(chunks).value.calls, Fragments(chunks))
  {
    if chunks != [] {
      var front, c := chunks[..|chunks| - 1], chunks[|chunks| - 1];
      GatheredSays(front);
      if c.choice.Some? {
        hide Says;
        DeltasSay(AbsorbAll(front).value.calls, Fragments(front), DeltasOf(c));
      } else {
        assert Fragments(chunks) == Fragments(front);
      }
    }
  }

  /** The response of a unary call. */
  datatype Response = Response(content: string, calls: seq<Call>)

  /** _assistant_message. */
  function AssistantMessage(m: Response): Message {
    Assistant(m.content, m.calls)
  }

  /** The stream carries the text and the calls of `m`. */
  ghost predicate Carries(chunks: seq<Chunk>, m: Response) {
    && TextOf(chunks) == m.content
    && forall i: nat ::
         (Mentions(Fragments(chunks), i) <==> i < |m.calls|)
           && (i < |m.calls| ==> CallAt(Fragments(chunks), i) == m.calls[i])
  }

  lemma SameSize(a: set<nat>, b: set<nat>)
    requires a <= b && |a| == |b|
    ensures a == b
  {
    if a != b {
      var x :| x in b && x !in a;
      SubsetSize(a, b - {x});
    }
  }

  lemma OrderedIs(calls: map<nat, Call>, cs: seq<Call>)
    requires forall i: nat :: (i in calls <==> i < |cs|) && (i < |cs| ==> calls[i] == cs[i])
    ensures Contiguous(calls) && Ordered(calls) == cs
  {
    assert calls.Keys == Drawn(0, |cs|);
    assert |calls.Keys| == |calls|;
  }

  /** No index lies beyond the last. */
  lemma ContiguousIsAll(calls: map<nat, Call>)
    requires Contiguous(calls)
    ensures forall i: nat :: i in calls <==> i < |calls|
  {
    assert |calls.Keys| == |calls|;
    SameSize(Drawn(0, |calls|), calls.Keys);
  }

  /** Every accepted stream yields the same assistant message as the unary
      conversion of what it carries. */
  lemma AcceptedStreamIsUnary(chunks: seq<Chunk>, m: Response)
    requires StreamTurn(chunks).Ok? && Carries(chunks, m)
    ensures StreamTurn(chunks).value.assistant == AssistantMessage(m)
  {
    hide Absorb, CallAt, TextOf, Mentions;
    GatheredSays(chunks);
    OrderedIs(AbsorbAll(chunks).value.calls, m.calls);
  }

  /** Two accepted streams that carry the same text and, per index, the same
      fragments put together give the same message, however they are cut. */
  lemma FragmentationDoesNotMatter(chunks: seq<Chunk>, others: seq<Chunk>, m: Response)
    requires StreamTurn(chunks).Ok? && StreamTurn(others).Ok? && Carries(chunks, m) && Carries(others, m)
    ensures StreamTurn(chunks).value.assistant == StreamTurn(others).value.assistant
  {
    AcceptedStreamIsUnary(chunks, m);
    AcceptedStreamIsUnary(others, m);
  }

  /** An accepted stream carries a response whose calls are complete and are
      there exactly when it finished for tool calls. */
  lemma AcceptedStreamCarriesItsMessage(chunks: seq<Chunk>)
    requires StreamTurn(chunks).Ok?
    ensures var t := StreamTurn(chunks).value;
            && t.assistant.Assistant? && Carries(chunks, Response(t.assistant.content, t.assistant.calls))
            && (forall c :: c in t.assistant.calls ==> Complete(c))
            && (t.finish == "tool_calls" <==> t.assistant.calls != [])
  {
    hide Absorb, CallAt, TextOf, Mentions;
    GatheredSays(chunks);
    ContiguousIsAll(AbsorbAll(chunks).value.calls);
  }

  // Which streams are accepted.

  predicate Terminal(c: Chunk) {
    c.choice.Some? && c.choice.value.finish != ""
  }

  predicate Sound(c: Chunk) {
    && c.negotiated && (forall d :: d in DeltasOf(c) ==> ValidDelta(d))
    && (Terminal(c) ==> c.ready && c.handle.Some?)
  }

  /** Nothing observed and nothing terminal follows the terminal chunk. */
  predicate Delivery(chunks: seq<Chunk>) {
    && (forall i :: 0 <= i < |chunks| ==> Sound(chunks[i]))
    && (forall i, j :: 0 <= i < j < |chunks| && Terminal(chunks[i]) ==>
         !Terminal(chunks[j]) && chunks[j].observation.None?)
  }

  /** The terminal chunk decides how the turn ends. */
  predicate EndsAs(g: Gathered, chunks: seq<Chunk>) {
    && (forall i :: 0 <= i < |chunks| && Terminal(chunks[i]) ==>
          g.terminal && chunks[i].handle == Some(g.handle) && chunks[i].choice.value.finish == g.finish
            && chunks[i].nativeUsage == g.nativeUsage)
    && (g.terminal ==> exists i :: 0 <= i < |chunks| && Terminal(chunks[i]))
  }

  lemma {:induction false} DeltasAccepted(calls: map<nat, Call>, deltas: seq<Delta>)
    ensures AddDeltas(calls, deltas).Ok? <==> forall d :: d in deltas ==> ValidDelta(d)
  {
    if deltas != [] {
      var front, d := deltas[..|deltas| - 1], deltas[|deltas| - 1];
      DeltasAccepted(calls, front);
      assert d in deltas;
      assert forall e :: e in deltas <==> e in front || e == d;
    }
  }

  lemma AbsorbAccepts(g: Gathered, c: Chunk)
    ensures Absorb(g, c).Ok? <==> Sound(c) && (g.terminal ==> !Terminal(c) && c.observation.None?)
    ensures Absorb(g, c).Ok? ==>
              var t := Absorb(g, c).value;
              && t.terminal == (g.terminal || Terminal(c))
              && (if Terminal(c) then c.handle == Some(t.handle) && c.choice.value.finish == t.finish
                 && c.nativeUsage == t.nativeUsage
                  else t.handle == g.handle && t.finish == g.finish && t.nativeUsage == g.nativeUsage)
  {
    DeltasAccepted(g.calls, DeltasOf(c));
  }

  /** The loop accepts exactly the deliveries, and takes handle, finish reason and
      usage from the terminal chunk. */
  lemma {:induction false} AcceptsExactlyDeliveries(chunks: seq<Chunk>)
    ensures AbsorbAll(chunks).Ok? <==> Delivery(chunks)
    ensures AbsorbAll(chunks).Ok? ==> EndsAs(AbsorbAll(chunks).value, chunks)
  {
    if chunks != [] {
      hide Absorb, Sound, Terminal;
      var front, c := chunks[..|chunks| - 1], chunks[|chunks| - 1];
      AcceptsExactlyDeliveries(front);
      assert forall i :: 0 <= i < |front| ==> front[i] == chunks[i];
      if AbsorbAll(front).Ok? {
        AbsorbAccepts(AbsorbAll(front).value, c);
        assert Delivery(front);
        assert AbsorbAll(front).value.terminal <==> exists i :: 0 <= i < |front| && Terminal(front[i]);
      } else {
        assert !Delivery(front);
      }
    }
  }

  /** The terminal chunk ends a turn that can go on: a handle, the usage, and
      tool calls exactly when that is why it finished. */
  predicate EndsTurn(c: Chunk, calls: seq<Call>) {
    && Terminal(c) && c.handle.Some? && c.handle.value != "" && c.nativeUsage.Some?
    && (c.choice.value.finish == "tool_calls" <==> calls != [])
  }

  predicate Acceptable(chunks: seq<Chunk>, m: Response) {
    && Delivery(chunks) && (exists i :: 0 <= i < |chunks| && EndsTurn(chunks[i], m.calls))
    && forall c :: c in m.calls ==> Complete(c)
  }

  lemma CompleteInOrder(calls: map<nat, Call>, cs: seq<Call>)
    requires forall i: nat :: (i in calls <==> i < |cs|) && (i < |cs| ==> calls[i] == cs[i])
    ensures InOrder(calls) <==> forall c :: c in cs ==> Complete(c)
    ensures calls == map[] <==> cs == []
  {
    hide Complete;
    OrderedIs(calls, cs);
    if InOrder(calls) {
      forall c | c in cs ensures Complete(c) {
        var i :| 0 <= i < |cs| && cs[i] == c;
        assert i in calls;
      }
    }
    if cs != [] {
      assert 0 in calls;
    }
  }

  lemma EndingDecides(g: Gathered, chunks: seq<Chunk>, calls: seq<Call>)
    requires EndsAs(g, chunks) && (g.calls == map[] <==> calls == [])
    ensures (exists i :: 0 <= i < |chunks| && EndsTurn(chunks[i], calls)) <==>
              g.terminal && g.handle != "" && g.nativeUsage.Some? && (g.finish == "tool_calls" <==> g.calls != map[])
  {
    if g.terminal {
      var i :| 0 <= i < |chunks| && Terminal(chunks[i]);
      assert EndsTurn(chunks[i], calls) <==>
             g.handle != "" && g.nativeUsage.Some? && (g.finish == "tool_calls" <==> calls != []);
    }
  }

  /** A stream that carries `m` is accepted if and only if it is a delivery whose
      terminal chunk ends the turn and every call of `m` is complete. */
  lemma AcceptsExactlyTheAcceptable(chunks: seq<Chunk>, m: Response)
    requires Carries(chunks, m)
    ensures StreamTurn(chunks).Ok? <==> Acceptable(chunks, m)
  {
    hide Absorb, CallAt, TextOf, Mentions, Delivery, EndsAs, EndsTurn, InOrder, Complete;
    AcceptsExactlyDeliveries(chunks);
    if AbsorbAll(chunks).Ok? {
      var g := AbsorbAll(chunks).value;
      GatheredSays(chunks);
      CompleteInOrder(g.calls, m.calls);
      EndingDecides(g, chunks, m.calls);
    }
  }

  /** Which streams are accepted, over all streams. */
  lemma AcceptedExactlyWhen(chunks: seq<Chunk>)
    ensures StreamTurn(chunks).Ok? <==> exists m :: Carries(chunks, m) && Acceptable(chunks, m)
  {
    hide StreamTurn, Carries, Acceptable, Complete;
    if StreamTurn(chunks).Ok? {
      AcceptedStreamCarriesItsMessage(chunks);
      var t := StreamTurn(chunks).value;
      AcceptsExactlyTheAcceptable(chunks, Response(t.assistant.content, t.assistant.calls));
    } else {
      forall m | Carries(chunks, m) ensures !Acceptable(chunks, m) {
        AcceptsExactlyTheAcceptable(chunks, m);
      }
    }
  }

  /** The observations of a stream, in order. */
  function ObservationsOf(chunks: seq<Chunk>): seq<nat> {
    if chunks == [] then []
    else
      var c := chunks[|chunks| - 1];
      ObservationsOf(chunks[..|chunks| - 1]) + if c.observation.Some? then [c.observation.value] else []
  }

  lemma AbsorbObserves(g: Gathered, c: Chunk)
    requires Absorb(g, c).Ok?
    ensures Absorb(g, c).value.observations ==
            g.observations + if c.observation.Some? then [c.observation.value] else []
  {
  }

  lemma {:induction false} GatheredObserves(chunks: seq<Chunk>)
    requires AbsorbAll(chunks).Ok?
    ensures AbsorbAll(chunks).value.observations == ObservationsOf(chunks)
  {
    if chunks != [] {
      hide Absorb;
      GatheredObserves(chunks[..|chunks| - 1]);
      AbsorbObserves(AbsorbAll(chunks[..|chunks| - 1]).value, chunks[|chunks| - 1]);
    }
  }

  /** An accepted turn holds the stream's observations in order, and the handle,
      finish reason and usage of its one terminal chunk. */
  lemma AcceptedTurnIsTheStreams(chunks: seq<Chunk>)
    requires StreamTurn(chunks).Ok?
    ensures var t := StreamTurn(chunks).value;
            && t.observations == ObservationsOf(chunks)
            && (exists i :: 0 <= i < |chunks| && Terminal(chunks[i]))
            && (forall i :: 0 <= i < |chunks| && Terminal(chunks[i]) ==>
                  && chunks[i].handle == Some(t.handle) && chunks[i].choice.value.finish == t.finish
                  && chunks[i].nativeUsage == Some(t.nativeUsage))
  {
    hide AbsorbAll, InOrder;
    AcceptsExactlyDeliveries(chunks);
    GatheredObserves(chunks);
  }

  // The next request.

  datatype Request = Request(messages: seq<Message>, stream: bool, streamOptions: bool, rest: nat)

  /** A caller's result; no content when it is not a string. */
  datatype ToolResult = ToolResult(call: string, content: Option<string>)

  predicate Fits(calls: seq<Call>, results: seq<ToolResult>) {
    |results| == |calls| && forall i :: 0 <= i < |calls| ==> results[i].call == calls[i].id && results[i].content.Some?
  }

  function Tools(calls: seq<Call>, results: seq<ToolResult>): seq<Message>
    requires Fits(calls, results)
  {
    seq(|calls|, i requires 0 <= i < |calls| => Tool(calls[i].id, results[i].content.value))
  }

  predicate Continuable(t: Turn, results: seq<ToolResult>) {
    t.handle != "" && t.assistant.Assistant? && t.assistant.calls != [] && Fits(t.assistant.calls, results)
  }

  /** The assistant's message and its results, in order. */
  function Block(t: Turn, results: seq<ToolResult>): seq<Message>
    requires Continuable(t, results)
  {
    [t.assistant] + Tools(t.assistant.calls, results)
  }

  function NextTurn(r: Request, t: Turn, results: seq<ToolResult>): Result<Request> {
    if !Continuable(t, results) then Failed
    else Ok(Request(r.messages + Block(t, results), false, false, r.rest))
  }

  method BuildNextTurn(r: Request, t: Turn, results: seq<ToolResult>) returns (next: Result<Request>)
    ensures next == NextTurn(r, t, results)
  {
    if t.handle == "" || !t.assistant.Assistant? || t.assistant.calls == []
      || |results| != |t.assistant.calls| { return Failed; }
    var calls := t.assistant.calls;
    var tools: seq<Message> := [];
    for i := 0 to |calls|
      invariant |tools| == i
      invariant forall k :: 0 <= k < i ==>
                  results[k].call == calls[k].id && results[k].content.Some?
                    && tools[k] == Tool(calls[k].id, results[k].content.value)
    {
      if results[i].call != calls[i].id || results[i].content.None? { return Failed; }
      tools := tools + [Tool(calls[i].id, results[i].content.value)];
    }
    assert tools == Tools(calls, results);
    assert r.messages + [t.assistant] + tools == r.messages + Block(t, results);
    return Ok(Request(r.messages + [t.assistant] + tools, false, false, r.rest));
  }

  datatype Round = Round(turn: Turn, results: seq<ToolResult>)

  /** next_turn applied again and again. */
  function Conversation(r: Request, rounds: seq<Round>): Result<Request> {
    if rounds == [] then Ok(r)
    else
      var before := Conversation(r, rounds[..|rounds| - 1]);
      if before.Failed? then Failed else NextTurn(before.value, rounds[|rounds| - 1].turn, rounds[|rounds| - 1].results)
  }

  /** A conversation goes on exactly as long as every turn can be continued. */
  lemma {:induction false} ConversationGoesOnExactlyWhen(r: Request, rounds: seq<Round>)
    ensures Conversation(r, rounds).Ok? <==>
              forall k :: 0 <= k < |rounds| ==> Continuable(rounds[k].turn, rounds[k].results)
  {
    hide Continuable;
    if rounds != [] {
      var front := rounds[..|rounds| - 1];
      ConversationGoesOnExactlyWhen(r, front);
      assert forall k :: 0 <= k < |front| ==> front[k] == rounds[k];
    }
  }

  /** Where the block of round `k` starts after a history of `start` messages:
      each round before it put one message and its results. */
  function Place(start: nat, rounds: seq<Round>, k: nat): nat
    requires k <= |rounds|
  {
    if k == 0 then start else Place(start, rounds, k - 1) + 1 + |rounds[k - 1].results|
  }

  lemma {:induction false} PlaceOfFront(start: nat, rounds: seq<Round>, k: nat)
    requires k < |rounds|
    ensures Place(start, rounds[..|rounds| - 1], k) == Place(start, rounds, k) >= start
  {
    if k > 0 {
      PlaceOfFront(start, rounds, k - 1);
    }
  }

  /** The assistant's message, and then one result per call, in the calls' order. */
  predicate BlockIs(block: seq<Message>, round: Round) {
    && round.turn.assistant.Assistant? && |block| == 1 + |round.turn.assistant.calls| == 1 + |round.results|
    && block[0] == round.turn.assistant
    && forall i :: 0 <= i < |round.results| ==>
         round.results[i].content.Some?
         && block[1 + i] == Tool(round.turn.assistant.calls[i].id, round.results[i].content.value)
  }

  lemma BlockIsInOrder(round: Round)
    requires Continuable(round.turn, round.results)
    ensures BlockIs(Block(round.turn, round.results), round)
  {
  }

  lemma LastTurn(r: Request, rounds: seq<Round>)
    requires Conversation(r, rounds).Ok? && rounds != []
    ensures var front, last := rounds[..|rounds| - 1], rounds[|rounds| - 1];
            && Conversation(r, front).Ok? && Continuable(last.turn, last.results)
            && Conversation(r, rounds).value.messages ==
               Conversation(r, front).value.messages + Block(last.turn, last.results)
            && |Block(last.turn, last.results)| == 1 + |last.results|
  {
  }

  /** A conversation extends its history to the place after the last round. */
  lemma {:induction false} ConversationExtends(r: Request, rounds: seq<Round>)
    requires Conversation(r, rounds).Ok?
    ensures var messages := Conversation(r, rounds).value.messages;
            |messages| == Place(|r.messages|, rounds, |rounds|) && r.messages <= messages
  {
    if rounds != [] {
      LastTurn(r, rounds);
      hide Conversation, Continuable, Block;
      ConversationExtends(r, rounds[..|rounds| - 1]);
      PlaceOfFront(|r.messages|, rounds, |rounds| - 1);
    }
  }

  /** The block is in the list at this place. */
  predicate StandsAt(messages: seq<Message>, at: nat, block: seq<Message>) {
    at + |block| <= |messages| && messages[at..at + |block|] == block
  }

  lemma StandsStill(before: seq<Message>, more: seq<Message>, at: nat, block: seq<Message>)
    requires StandsAt(before, at, block)
    ensures StandsAt(before + more, at, block)
  {
    assert (before + more)[at..at + |block|] == before[at..at + |block|];
  }

  lemma {:induction false} BlockStands(r: Request, rounds: seq<Round>, k: nat)
    requires Conversation(r, rounds).Ok? && k < |rounds|
    ensures Continuable(rounds[k].turn, rounds[k].results)
    ensures StandsAt(Conversation(r, rounds).value.messages, Place(|r.messages|, rounds, k),
              Block(rounds[k].turn, rounds[k].results))
    decreases |rounds|
  {
    var front, last := rounds[..|rounds| - 1], rounds[|rounds| - 1];
    LastTurn(r, rounds);
    ConversationExtends(r, front);
    PlaceOfFront(|r.messages|, rounds, k);
    if k < |front| {
      hide Conversation, Continuable, Block, StandsAt;
      BlockStands(r, front, k);
      assert front[k] == rounds[k];
      StandsStill(Conversation(r, front).value.messages, Block(last.turn, last.results),
        Place(|r.messages|, rounds, k), Block(rounds[k].turn, rounds[k].results));
    } else {
      hide Conversation, Continuable, Block;
    }
  }

  /** In a conversation of any length every assistant message is at its place,
      directly followed by exactly its results in the order of its calls, and
      the history before is unchanged. Nothing else is there: the block of round
      k + 1 starts where that of round k ends, and the last one ends the list. */
  lemma EveryTurnKeepsItsResults(r: Request, rounds: seq<Round>, k: nat)
    requires Conversation(r, rounds).Ok? && k < |rounds|
    ensures Continuable(rounds[k].turn, rounds[k].results)
    ensures var messages := Conversation(r, rounds).value.messages;
            var block, at := Block(rounds[k].turn, rounds[k].results), Place(|r.messages|, rounds, k);
            && |messages| == Place(|r.messages|, rounds, |rounds|) && r.messages <= messages
            && Place(|r.messages|, rounds, k + 1) == at + |block| <= |messages|
            && messages[at..at + |block|] == block && BlockIs(block, rounds[k])
  {
    hide Conversation, Continuable, Block;
    BlockStands(r, rounds, k);
    ConversationExtends(r, rounds);
    BlockIsInOrder(rounds[k]);
  }

  /** Any two consecutive turns stand directly after one another. */
  lemma TurnsAreAdjacent(r: Request, rounds: seq<Round>, k: nat)
    requires Conversation(r, rounds).Ok? && k + 1 < |rounds|
    ensures Continuable(rounds[k].turn, rounds[k].results) && Continuable(rounds[k + 1].turn, rounds[k + 1].results)
    ensures var messages, at := Conversation(r, rounds).value.messages, Place(|r.messages|, rounds, k);
            var both := Block(rounds[k].turn, rounds[k].results) + Block(rounds[k + 1].turn, rounds[k + 1].results);
            at + |both| <= |messages| && messages[at..at + |both|] == both
  {
    hide Conversation, Block, Continuable, Place, BlockIs;
    EveryTurnKeepsItsResults(r, rounds, k);
    EveryTurnKeepsItsResults(r, rounds, k + 1);
  }
}
