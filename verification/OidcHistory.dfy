/** What every outcome of an OIDC flow goes back to, and exactly when a callback
    takes its flow and commits its outcome. */
module OidcHistory {
  import opened Common
  import opened OidcFlows

  /** A configuration that a starting flow has read is enabled, and is the
      present one if it has its tag. */
  predicate ReadsCurrent(s: State) {
    forall b :: b in s.begins ==>
      s.begins[b].enabled
        && (s.config.Some? && s.config.value.etag == s.begins[b].etag ==> s.config.value == s.begins[b])
  }

  lemma StepKeepsReads(s: State, r: Request)
    requires TagsDrawn(s) && ReadsCurrent(s)
    ensures ReadsCurrent(Step(s, r).0)
  {
  }

  lemma {:induction false} RunKeepsReads(s: State, run: seq<Request>)
    requires Inv(s) && ReadsCurrent(s)
    ensures Inv(After(s, run)) && ReadsCurrent(After(s, run))
    decreases |run|
  {
    hide Step, ReadsCurrent, FlowsCurrent, CallbacksDistinct, TagsDrawn;
    if run != [] {
      StepKeepsInv(s, run[0]);
      StepKeepsReads(s, run[0]);
      RunKeepsReads(Step(s, run[0]).0, run[1..]);
    }
  }

  // Exactly when a callback takes its flow.

  /** The flow stands as it was begun, under the configuration it was begun with. */
  predicate Intact(s: State, f: Id, flow: Flow) {
    && f in s.flows && s.flows[f] == flow
    && s.config.Some? && s.config.value.etag == flow.etag && s.config.value.enabled
  }

  /** No configuration was stored, and the flow's own browser did not come before. */
  predicate Untouched(run: seq<Request>, f: Id, cookie: Id) {
    forall r :: r in run ==> !r.Configure? && r != Consume(f, cookie)
  }

  lemma StepKeepsIntact(s: State, r: Request, f: Id, flow: Flow)
    requires f < s.next && Intact(s, f, flow) && s.now < flow.expires
    ensures var t := Step(s, r).0;
            if r.Configure? || r == Consume(f, flow.cookie) then Gone(t, f) else f < t.next && Intact(t, f, flow)
  {
  }

  lemma StepKeepsTime(s: State, r: Request)
    ensures s.now <= Step(s, r).0.now
  {
  }

  lemma {:induction false} RunKeepsGone(s: State, run: seq<Request>, f: Id)
    requires Gone(s, f)
    ensures Gone(After(s, run), f)
    decreases |run|
  {
    hide Step, Gone;
    if run != [] {
      StepKeepsGone(s, run[0], f);
      RunKeepsGone(Step(s, run[0]).0, run[1..], f);
    }
  }

  lemma {:induction false} RunKeepsTime(s: State, run: seq<Request>)
    ensures s.now <= After(s, run).now
    decreases |run|
  {
    hide Step;
    if run != [] {
      StepKeepsTime(s, run[0]);
      RunKeepsTime(Step(s, run[0]).0, run[1..]);
    }
  }

  lemma {:induction false} IntactExactlyWhen(s: State, run: seq<Request>, f: Id, flow: Flow)
    requires f < s.next && Intact(s, f, flow) && After(s, run).now < flow.expires
    ensures if Untouched(run, f, flow.cookie) then Intact(After(s, run), f, flow) else Gone(After(s, run), f)
    decreases |run|
  {
    hide Step, Intact, Gone;
    if run != [] {
      RunKeepsTime(s, run);
      var t := Step(s, run[0]).0;
      StepKeepsIntact(s, run[0], f, flow);
      assert forall r :: r in run <==> r == run[0] || r in run[1..];
      if run[0].Configure? || run[0] == Consume(f, flow.cookie) {
        RunKeepsGone(t, run[1..], f);
      } else {
        RunKeepsTime(t, run[1..]);
        IntactExactlyWhen(t, run[1..], f, flow);
      }
    }
  }

  lemma BeginIsIntact(s: State, r: Request)
    requires ReadsCurrent(s) && Step(s, r).1.Begun?
    ensures var (t, y) := Step(s, r);
            r.Begin? && y.flow < t.next && t.now == s.now && t.config.Some?
            && Intact(t, y.flow, Flow(r.kind, y.cookie, t.config.value.etag, s.now + 600))
  {
  }

  lemma IntactIsConsumable(s: State, f: Id, flow: Flow, cookie: Id)
    requires Intact(s, f, flow) && s.now < flow.expires
    ensures Step(s, Consume(f, cookie)).1.Consumed? <==> cookie == flow.cookie
  {
  }

  /** While it is there, the flow stands as it was begun. */
  predicate Bound(s: State, f: Id, flow: Flow) {
    f < s.next && (f in s.flows ==> s.flows[f] == flow)
  }

  lemma StepKeepsBound(s: State, r: Request, f: Id, flow: Flow)
    requires Bound(s, f, flow)
    ensures Bound(Step(s, r).0, f, flow)
  {
  }

  lemma {:induction false} RunKeepsBound(s: State, run: seq<Request>, f: Id, flow: Flow)
    requires Bound(s, f, flow)
    ensures Bound(After(s, run), f, flow)
    decreases |run|
  {
    hide Step, Bound;
    if run != [] {
      StepKeepsBound(s, run[0], f, flow);
      RunKeepsBound(Step(s, run[0]).0, run[1..], f, flow);
    }
  }

  lemma IntactIsBound(s: State, f: Id, flow: Flow)
    requires f < s.next && Intact(s, f, flow)
    ensures Bound(s, f, flow)
  {
  }

  lemma ConsumedIsBound(s: State, f: Id, flow: Flow, brought: Id)
    requires Bound(s, f, flow) && Step(s, Consume(f, brought)).1.Consumed?
    ensures brought == flow.cookie && s.now < flow.expires
  {
  }

  lemma InitReads()
    ensures Inv(Init()) && ReadsCurrent(Init())
  {
  }

  /** In every run a callback takes a flow if and only if the browser that began
      it brings its cookie, for the first time, within ten minutes, and no
      configuration was stored since. */
  lemma ConsumedExactlyWhen(before: seq<Request>, begin: Request, between: seq<Request>, cookie: Id)
    requires Step(After(Init(), before), begin).1.Begun?
    ensures var s := After(Init(), before);
            var (s1, y) := Step(s, begin);
            var m := After(s1, between);
            Step(m, Consume(y.flow, cookie)).1.Consumed? <==>
              cookie == y.cookie && m.now < s.now + 600 && Untouched(between, y.flow, y.cookie)
  {
    var s := After(Init(), before);
    var (s1, y) := Step(s, begin);
    var m := After(s1, between);
    InitReads();
    RunKeepsReads(Init(), before);
    BeginIsIntact(s, begin);
    var flow := Flow(begin.kind, y.cookie, s1.config.value.etag, s.now + 600);
    IntactIsBound(s1, y.flow, flow);
    hide Step, Intact, Gone, Bound;
    RunKeepsBound(s1, between, y.flow, flow);
    if m.now < s.now + 600 {
      IntactExactlyWhen(s1, between, y.flow, flow);
      if Untouched(between, y.flow, y.cookie) {
        IntactIsConsumable(m, y.flow, flow, cookie);
      } else {
        GoneIsRefused(m, y.flow, cookie);
      }
    } else if Step(m, Consume(y.flow, cookie)).1.Consumed? {
      ConsumedIsBound(m, y.flow, flow, cookie);
    }
  }

  lemma GoneIsRefused(s: State, f: Id, cookie: Id)
    requires Gone(s, f)
    ensures Step(s, Consume(f, cookie)).1 == Refused
  {
  }

  // Exactly when a flow is begun.

  predicate Reading(s: State, b: Id, config: Config) {
    b in s.begins && s.begins[b] == config
  }

  predicate Ended(s: State, b: Id) {
    b < s.next && b !in s.begins
  }

  predicate Unbegun(run: seq<Request>, b: Id) {
    forall r :: r in run ==> !(r.Begin? && r.b == b)
  }

  lemma StepKeepsReading(s: State, r: Request, b: Id, config: Config)
    requires b < s.next && Reading(s, b, config)
    ensures var t := Step(s, r).0; if r.Begin? && r.b == b then Ended(t, b) else b < t.next && Reading(t, b, config)
  {
  }

  lemma StepKeepsEnded(s: State, r: Request, b: Id)
    requires Ended(s, b)
    ensures Ended(Step(s, r).0, b)
  {
  }

  lemma {:induction false} RunKeepsEnded(s: State, run: seq<Request>, b: Id)
    requires Ended(s, b)
    ensures Ended(After(s, run), b)
    decreases |run|
  {
    hide Step, Ended;
    if run != [] {
      StepKeepsEnded(s, run[0], b);
      RunKeepsEnded(Step(s, run[0]).0, run[1..], b);
    }
  }

  lemma {:induction false} ReadingExactlyWhen(s: State, run: seq<Request>, b: Id, config: Config)
    requires b < s.next && Reading(s, b, config)
    ensures if Unbegun(run, b) then Reading(After(s, run), b, config) else Ended(After(s, run), b)
    decreases |run|
  {
    hide Step, Reading, Ended;
    if run != [] {
      var t := Step(s, run[0]).0;
      StepKeepsReading(s, run[0], b, config);
      assert forall r :: r in run <==> r == run[0] || r in run[1..];
      if run[0].Begin? && run[0].b == b {
        RunKeepsEnded(t, run[1..], b);
      } else {
        ReadingExactlyWhen(t, run[1..], b, config);
      }
    }
  }

  lemma LoadReads(s: State)
    requires TagsDrawn(s)
    ensures var (t, y) := Step(s, Load);
            && (y.Loaded? <==> s.config.Some? && s.config.value.enabled)
            && (y.Loaded? ==> y.b < t.next && Reading(t, y.b, s.config.value) && Tagged(t) && t.config == s.config)
  {
  }

  lemma BeginAnswers(s: State, b: Id, kind: Kind)
    requires Tagged(s)
    ensures Ended(s, b) ==> Step(s, Begin(b, kind)).1 == Refused
    ensures forall config :: Reading(s, b, config) ==>
              (Step(s, Begin(b, kind)).1.Begun? <==> s.config.value.etag == config.etag)
  {
  }

  /** A flow is begun if and only if the configuration it was read under was
      enabled and is the one stored since, and its transaction comes for the
      first time. */
  lemma BegunExactlyWhen(before: seq<Request>, between: seq<Request>, kind: Kind)
    ensures var s := After(Init(), before);
            var (s1, y) := Step(s, Load);
            && (y.Loaded? <==> s.config.Some? && s.config.value.enabled)
            && (y.Loaded? ==>
                  (Step(After(s1, between), Begin(y.b, kind)).1.Begun? <==>
                      Unbegun(between, y.b) && Unconfigured(between)))
  {
    var s := After(Init(), before);
    var (s1, y) := Step(s, Load);
    InitReads();
    RunKeepsReads(Init(), before);
    LoadReads(s);
    hide Step, Reading, Ended, Inv, ReadsCurrent;
    if y.Loaded? {
      ReadingExactlyWhen(s1, between, y.b, s.config.value);
      ConfigExactlyWhen(s1, between);
      BeginAnswers(After(s1, between), y.b, kind);
    }
  }

  // Exactly when it commits an outcome.

  predicate Pending(s: State, k: Id, held: Callback) {
    k in s.callbacks && s.callbacks[k] == held
  }

  predicate Settled(s: State, k: Id) {
    k < s.next && k !in s.callbacks
  }

  predicate Unfinished(run: seq<Request>, k: Id) {
    forall r :: r in run ==> !(r.Finish? && r.k == k)
  }

  lemma StepKeepsPending(s: State, r: Request, k: Id, held: Callback)
    requires k < s.next && Pending(s, k, held)
    ensures var t := Step(s, r).0;
            if r.Finish? && r.k == k then Settled(t, k) else k < t.next && Pending(t, k, held)
  {
  }

  lemma StepKeepsSettled(s: State, r: Request, k: Id)
    requires Settled(s, k)
    ensures Settled(Step(s, r).0, k)
  {
  }

  lemma {:induction false} RunKeepsSettled(s: State, run: seq<Request>, k: Id)
    requires Settled(s, k)
    ensures Settled(After(s, run), k)
    decreases |run|
  {
    hide Step, Settled;
    if run != [] {
      StepKeepsSettled(s, run[0], k);
      RunKeepsSettled(Step(s, run[0]).0, run[1..], k);
    }
  }

  lemma {:induction false} PendingExactlyWhen(s: State, run: seq<Request>, k: Id, held: Callback)
    requires k < s.next && Pending(s, k, held)
    ensures if Unfinished(run, k) then Pending(After(s, run), k, held) else Settled(After(s, run), k)
    decreases |run|
  {
    hide Step, Pending, Settled;
    if run != [] {
      var t := Step(s, run[0]).0;
      StepKeepsPending(s, run[0], k, held);
      assert forall r :: r in run <==> r == run[0] || r in run[1..];
      if run[0].Finish? && run[0].k == k {
        RunKeepsSettled(t, run[1..], k);
      } else {
        PendingExactlyWhen(t, run[1..], k, held);
      }
    }
  }

  predicate Unconfigured(run: seq<Request>) {
    forall r :: r in run ==> !r.Configure?
  }

  lemma StepConfig(s: State, r: Request)
    requires Tagged(s)
    ensures var t := Step(s, r).0; Tagged(t) && (r.Configure? <==> t.config.value.etag > s.config.value.etag)
    ensures !r.Configure? ==> Step(s, r).0.config == s.config
  {
  }

  lemma {:induction false} ConfigExactlyWhen(s: State, run: seq<Request>)
    requires Tagged(s)
    ensures Tagged(After(s, run))
    ensures if Unconfigured(run) then After(s, run).config == s.config
            else After(s, run).config.value.etag > s.config.value.etag
    decreases |run|
  {
    hide Step;
    if run != [] {
      var t := Step(s, run[0]).0;
      StepConfig(s, run[0]);
      assert forall r :: r in run <==> r == run[0] || r in run[1..];
      ConfigExactlyWhen(t, run[1..]);
    }
  }

  lemma ConsumedIsPending(s: State, f: Id, cookie: Id)
    requires Inv(s) && Step(s, Consume(f, cookie)).1.Consumed?
    ensures var (t, y) := Step(s, Consume(f, cookie));
            && f in s.flows && s.config.Some? && s.config.value.enabled && Tagged(t) && t.config == s.config
            && y.k < t.next && Pending(t, y.k, Callback(f, s.flows[f].kind, s.config.value))
  {
  }

  lemma FinishEnds(s: State, k: Id, verdict: Verdict)
    requires Tagged(s)
    ensures var y := Step(s, Finish(k, verdict)).1;
            && (Settled(s, k) ==> y == Refused)
            && forall held :: Pending(s, k, held) ==>
                 y == if verdict.Fails? || s.config.value.etag != held.config.etag || !s.config.value.enabled then
                   Refused
                      else if verdict.Grants? then Accepted(held.flow, held.kind) else Denied(held.flow)
  {
  }

  /** Once a callback has taken its flow, it commits an outcome if and only if
      its last transaction comes for the first time, no configuration was stored
      since, and the verdict is no failure: then the outcome that the verdict
      gives, of the kind the flow was begun for. */
  lemma FinishedExactlyWhen(before: seq<Request>, f: Id, cookie: Id, between: seq<Request>, verdict: Verdict)
    requires Step(After(Init(), before), Consume(f, cookie)).1.Consumed?
    ensures var s := After(Init(), before);
            var (s1, y) := Step(s, Consume(f, cookie));
            && f in s.flows
            && Step(After(s1, between), Finish(y.k, verdict)).1 ==
               if verdict.Fails? || !Unfinished(between, y.k) || !Unconfigured(between) then Refused
               else if verdict.Grants? then Accepted(f, s.flows[f].kind) else Denied(f)
  {
    var s := After(Init(), before);
    var (s1, y) := Step(s, Consume(f, cookie));
    InitReads();
    RunKeepsReads(Init(), before);
    ConsumedIsPending(s, f, cookie);
    hide Step, Pending, Settled, Inv, ReadsCurrent;
    PendingExactlyWhen(s1, between, y.k, Callback(f, s.flows[f].kind, s.config.value));
    ConfigExactlyWhen(s1, between);
    FinishEnds(After(s1, between), y.k, verdict);
  }

  // What an outcome goes back to.

  lemma StepAddsFlow(s: State, r: Request, f: Id)
    requires f !in s.flows && f in Step(s, r).0.flows
    ensures var (t, y) := Step(s, r); var flow := t.flows[f];
            && r == Begin(r.b, flow.kind) && y == Begun(f, flow.cookie) && flow.expires == s.now + 600
            && Bound(t, f, flow)
  {
  }

  /** Where in a run a flow was begun. */
  lemma {:induction false} FindBegin(s: State, run: seq<Request>, f: Id)
      returns (a: seq<Request>, begin: Request, b: seq<Request>)
    requires f !in s.flows && f in After(s, run).flows
    ensures var flow := After(s, run).flows[f];
            && run == a + [begin] + b && begin.Begin? && begin.kind == flow.kind
            && Step(After(s, a), begin).1 == Begun(f, flow.cookie) && flow.expires == After(s, a).now + 600
    decreases |run|
  {
    var t := Step(s, run[0]).0;
    if f in t.flows {
      StepAddsFlow(s, run[0], f);
      RunKeepsBound(t, run[1..], f, t.flows[f]);
      a, begin, b := [], run[0], run[1..];
      assert After(s, a) == s;
    } else {
      hide Step;
      var c;
      c, begin, b := FindBegin(t, run[1..], f);
      a := [run[0]] + c;
      assert a[1..] == c;
    }
  }

  predicate Held(s: State, k: Id, held: Callback) {
    k < s.next && (k in s.callbacks ==> s.callbacks[k] == held)
  }

  lemma StepKeepsHeld(s: State, r: Request, k: Id, held: Callback)
    requires Held(s, k, held)
    ensures Held(Step(s, r).0, k, held)
  {
  }

  lemma {:induction false} RunKeepsHeld(s: State, run: seq<Request>, k: Id, held: Callback)
    requires Held(s, k, held)
    ensures Held(After(s, run), k, held)
    decreases |run|
  {
    hide Step, Held;
    if run != [] {
      StepKeepsHeld(s, run[0], k, held);
      RunKeepsHeld(Step(s, run[0]).0, run[1..], k, held);
    }
  }

  lemma StepAddsCallback(s: State, r: Request, k: Id)
    requires k !in s.callbacks && k in Step(s, r).0.callbacks
    ensures var (t, y) := Step(s, r); var held := t.callbacks[k];
            && y == Consumed(k) && held.flow in s.flows && r == Consume(held.flow, s.flows[held.flow].cookie)
            && held.kind == s.flows[held.flow].kind && s.now < s.flows[held.flow].expires && Held(t, k, held)
  {
  }

  /** Where in a run a callback took its flow. */
  lemma {:induction false} FindConsume(s: State, run: seq<Request>, k: Id) returns (a: seq<Request>, b: seq<Request>)
    requires k !in s.callbacks && k in After(s, run).callbacks
    ensures var held, m := After(s, run).callbacks[k], After(s, a);
            && held.flow in m.flows
            && run == a + [Consume(held.flow, m.flows[held.flow].cookie)] + b
            && Step(m, Consume(held.flow, m.flows[held.flow].cookie)).1 == Consumed(k)
            && held.kind == m.flows[held.flow].kind && m.now < m.flows[held.flow].expires
    decreases |run|
  {
    var t := Step(s, run[0]).0;
    if k in t.callbacks {
      StepAddsCallback(s, run[0], k);
      RunKeepsHeld(t, run[1..], k, t.callbacks[k]);
      a, b := [], run[1..];
      assert After(s, a) == s;
    } else {
      hide Step;
      var c;
      c, b := FindConsume(t, run[1..], k);
      a := [run[0]] + c;
      assert a[1..] == c;
    }
  }

  lemma EndIsFinish(s: State, end: Request, f: Id)
    requires Ends(Step(s, end).1, f)
    ensures end.Finish? && end.k in s.callbacks && s.callbacks[end.k].flow == f && !end.verdict.Fails?
    ensures Step(s, end).1 == if end.verdict.Grants? then Accepted(f, s.callbacks[end.k].kind) else Denied(f)
  {
  }

  /** Every outcome of every run goes back to one begin, one callback with the
      cookie that begin gave out, within ten minutes of it, and the verdict of
      that callback's last transaction. */
  lemma OutcomeHasItsHistory(run: seq<Request>, end: Request, f: Id)
      returns (a: seq<Request>, begin: Request, b: seq<Request>, cookie: Id, c: seq<Request>)
    requires Ends(Step(After(Init(), run), end).1, f)
    ensures run == a + [begin] + b + [Consume(f, cookie)] + c
    ensures begin.Begin? && Step(After(Init(), a), begin).1 == Begun(f, cookie)
    ensures var m := After(Init(), a + [begin] + b);
            && m.now < After(Init(), a).now + 600
            && end.Finish? && Step(m, Consume(f, cookie)).1 == Consumed(end.k)
    ensures !end.verdict.Fails?
    ensures Step(After(Init(), run), end).1 == if end.verdict.Grants? then Accepted(f, begin.kind) else Denied(f)
  {
    var s := After(Init(), run);
    EndIsFinish(s, end, f);
    hide Step;
    var front;
    front, c := FindConsume(Init(), run, end.k);
    cookie := After(Init(), front).flows[f].cookie;
    a, begin, b := FindBegin(Init(), front, f);
    assert front == a + [begin] + b;
  }
}
