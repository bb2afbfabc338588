/** SAML sign-in flows of internal/access/saml_flow.go: begin, the assertion
    consumer service (ACS) and completion, with the reads and verifications that
    happen outside the installation lock as steps of their own.

    A flow is named by its row, standing for the relay state whose digest finds
    the row. */
module SamlFlows {
  import opened Common

  const FLOW_TTL: Time := 300
  const SKEW: Time := 90

  datatype Config = Config(etag: Id, enabled: bool, entity: Id, document: nat)

  datatype Kind = Login | Link | Reauthenticate

  /** A signed assertion: its id, the request it answers, and the ends of its
      conditions, of its subject confirmation and of the session it allows. */
  datatype Assertion = Assertion(
    id: Id, inResponseTo: Id, notOnOrAfter: Time, confirmedUntil: Time, sessionUntil: Option<Time>, claims: nat)

  /** olp.saml_flows with its sealed secret; `received` is what the ACS stored. */
  datatype Flow = Flow(kind: Kind, cookie: Id, etag: Id, request: Id, expires: Time, received: Option<Assertion>)

  datatype Begin = Begin(config: Config, request: Id)

  /** What an ACS request has read and verified before its transaction. */
  datatype Post = Post(flow: Id, read: Flow, config: Config, assertion: Assertion)

  datatype State = State(
    now: Time, next: Id, config: Option<Config>,
    flows: map<Id, Flow>, begins: map<Id, Begin>, posts: map<Id, Post>, replays: map<(Id, Id), Time>)

  /** What acceptSAML decides: a session, link or grant; a denial, which commits;
      or any other error, which rolls the transaction back. */
  datatype Verdict = Grants | Denies | Fails

  datatype Request =
    | Configure(enabled: bool, entity: Id, document: nat)
    | Load
    | Start(b: Id, kind: Kind)
    | Present(f: Id, assertion: Assertion)
    | Receive(p: Id)
    | Complete(f: Id, cookie: Id, verdict: Verdict)
    | Sweep(gone: set<Id>)
    | Wait(until: Time)

  datatype Reply =
    | Refused
    | Done
    | Loaded(b: Id)
    | Begun(flow: Id, cookie: Id)
    | Presented(p: Id)
    | Received(flow: Id, assertion: Assertion)
    | Completed(flow: Id, kind: Kind)
    | Denied(flow: Id)

  function Init(): State {
    State(0, 0, None, map[], map[], map[], map[])
  }

  function Min(a: Time, b: Time): Time {
    if a < b then a else b
  }

  /** The last moment, exclusive, at which the assertion may be relied on. */
  function Deadline(a: Assertion): Time {
    var end := Min(a.notOnOrAfter, a.confirmedUntil) + SKEW;
    if a.sessionUntil.None? then end else Min(end, a.sessionUntil.value + SKEW)
  }

  /** StoreSAMLDefinition: a fresh entity tag, and no flow outlives it. */
  function Configured(s: State, enabled: bool, entity: Id, document: nat): State {
    s.(next := s.next + 1, config := Some(Config(s.next, enabled, entity, document)), flows := map[])
  }

  /** The last transaction of beginSAML. */
  function Started(s: State, b: Id, kind: Kind): (State, Reply) {
    if b !in s.begins then (s, Refused)
    else
      var read := s.begins[b];
      var s1 := s.(begins := s.begins - {b});
      if s.config.None? || s.config.value.etag != read.config.etag || !s.config.value.enabled then (s1, Refused)
      else
        (s1.(next := s.next + 2,
             flows := s.flows[s.next := Flow(kind, s.next + 1, read.config.etag, read.request, s.now + FLOW_TTL,
               None)]),
         Begun(s.next, s.next + 1))
  }

  /** samlidentity.Verify, as far as requests and time are concerned. */
  predicate Verified(a: Assertion, request: Id, now: Time) {
    a.inResponseTo == request && now < Deadline(a)
  }

  /** samlACS before its transaction. */
  function Presenting(s: State, f: Id, a: Assertion): (State, Reply) {
    if f !in s.flows || s.flows[f].expires <= s.now || s.flows[f].received.Some?
       || s.config.None? || !s.config.value.enabled || s.config.value.etag != s.flows[f].etag
       || !Verified(a, s.flows[f].request, s.now) then (s, Refused)
    else
      (s.(next := s.next + 1, posts := s.posts[s.next := Post(f, s.flows[f], s.config.value, a)]), Presented(s.next))
  }

  function Remembered(s: State): map<(Id, Id), Time> {
    map k | k in s.replays && s.replays[k] > s.now :: s.replays[k]
  }

  predicate Receivable(s: State, p: Post) {
    && s.config.Some? && s.config.value.enabled && s.config.value.etag == p.read.etag
    && (p.config.entity, p.assertion.id) !in Remembered(s)
    && p.flow in s.flows && s.flows[p.flow].received.None? && s.flows[p.flow].expires > s.now
  }

  /** The transaction of samlACS. The flow's end is shortened to the assertion's. */
  function Receiving(s: State, p: Id): (State, Reply) {
    if p !in s.posts then (s, Refused)
    else
      var post := s.posts[p];
      var s1 := s.(posts := s.posts - {p});
      if !Receivable(s, post) then (s1, Refused)
      else
        var a := post.assertion;
        var flow := s.flows[post.flow].(received := Some(a), expires := Min(post.read.expires, Deadline(a)));
        (s1.(flows := s.flows[post.flow := flow],
             replays := Remembered(s)[(post.config.entity, a.id) := a.notOnOrAfter + SKEW]),
         Received(post.flow, a))
  }

  predicate Completable(s: State, f: Id, cookie: Id) {
    && f in s.flows && s.flows[f].expires > s.now && s.flows[f].received.Some? && s.flows[f].cookie == cookie
    && s.config.Some? && s.config.value.enabled && s.config.value.etag == s.flows[f].etag
  }

  /** completeSAML. */
  function Completing(s: State, f: Id, cookie: Id, verdict: Verdict): (State, Reply) {
    if !Completable(s, f, cookie) || verdict.Fails? then (s, Refused)
    else (s.(flows := s.flows - {f}), if verdict.Grants? then Completed(f, s.flows[f].kind) else Denied(f))
  }

  function Step(s: State, r: Request): (State, Reply) {
    match r
    case Configure(enabled, entity, document) => (Configured(s, enabled, entity, document), Done)
    case Load =>
      if s.config.None? || !s.config.value.enabled then (s, Refused)
      else (s.(next := s.next + 2, begins := s.begins[s.next := Begin(s.config.value, s.next + 1)]), Loaded(s.next))
    case Start(b, kind) => Started(s, b, kind)
    case Present(f, a) => Presenting(s, f, a)
    case Receive(p) => Receiving(s, p)
    case Complete(f, cookie, verdict) => Completing(s, f, cookie, verdict)
    case Sweep(gone) => (s.(flows := s.flows - set f | f in gone && f in s.flows && s.flows[f].expires <= s.now), Done)
    case Wait(until) => (s.(now := if until > s.now then until else s.now), Done)
  }

  function After(s: State, run: seq<Request>): State
    decreases |run|
  {
    if run == [] then s else After(Step(s, run[0]).0, run[1..])
  }

  // Invariant.

  /** Every flow and every starting flow has a request id of its own. */
  predicate RequestsDistinct(s: State) {
    && (forall f :: f in s.flows ==> f < s.next && s.flows[f].request < s.next)
    && (forall b :: b in s.begins ==> b < s.next && s.begins[b].request < s.next)
    && (forall f, g :: f in s.flows && g in s.flows && s.flows[f].request == s.flows[g].request ==> f == g)
    && (forall b, c :: b in s.begins && c in s.begins && s.begins[b].request == s.begins[c].request ==> b == c)
    && (forall f, b :: f in s.flows && b in s.begins ==> s.flows[f].request != s.begins[b].request)
  }

  /** A post read the flow it names, and its assertion answers that flow's request. */
  predicate PostAgrees(s: State, p: Post) {
    && p.flow < s.next && p.assertion.inResponseTo == p.read.request
    && (p.flow in s.flows ==> s.flows[p.flow].request == p.read.request && s.flows[p.flow].etag == p.read.etag)
  }

  predicate PostsAgree(s: State) {
    forall p :: p in s.posts ==> PostAgrees(s, s.posts[p])
  }

  /** A received flow ends no later than its assertion. */
  predicate FlowsAgree(s: State) {
    && (s.config.Some? ==> s.config.value.etag < s.next)
    && (forall f :: f in s.flows ==> s.config.Some? && s.flows[f].etag == s.config.value.etag)
    && (forall f :: f in s.flows && s.flows[f].received.Some? ==>
          s.flows[f].received.value.inResponseTo == s.flows[f].request
            && s.flows[f].expires <= Deadline(s.flows[f].received.value))
  }

  predicate Inv(s: State) {
    RequestsDistinct(s) && PostsAgree(s) && FlowsAgree(s)
  }

  lemma StartKeepsRequests(s: State, b: Id, kind: Kind)
    requires RequestsDistinct(s)
    ensures RequestsDistinct(Started(s, b, kind).0)
  {
  }

  lemma LoadKeepsRequests(s: State)
    requires RequestsDistinct(s)
    ensures RequestsDistinct(Step(s, Load).0)
  {
  }

  /** No other step adds a flow or a starting one, or changes a request id. */
  lemma OtherStepsAddNone(s: State, r: Request)
    requires !r.Start? && !r.Load?
    ensures var t := Step(s, r).0;
            && t.next >= s.next && t.begins == s.begins
            && forall f :: f in t.flows ==> f in s.flows && t.flows[f].request == s.flows[f].request
  {
  }

  lemma StepKeepsRequests(s: State, r: Request)
    requires RequestsDistinct(s)
    ensures RequestsDistinct(Step(s, r).0)
  {
    if r.Start? {
      StartKeepsRequests(s, r.b, r.kind);
    } else if r.Load? {
      LoadKeepsRequests(s);
    } else {
      hide Step;
      OtherStepsAddNone(s, r);
    }
  }

  lemma StepKeepsPost(s: State, r: Request, p: Post)
    requires PostAgrees(s, p)
    ensures PostAgrees(Step(s, r).0, p)
  {
    hide Deadline, Remembered;
  }

  lemma NewPostAgrees(s: State, r: Request, p: Id)
    requires p in Step(s, r).0.posts && (forall f :: f in s.flows ==> f < s.next)
    ensures (p in s.posts && Step(s, r).0.posts[p] == s.posts[p]) || PostAgrees(Step(s, r).0, Step(s, r).0.posts[p])
  {
    hide Deadline, Remembered;
  }

  lemma StepKeepsPosts(s: State, r: Request)
    requires RequestsDistinct(s) && PostsAgree(s)
    ensures PostsAgree(Step(s, r).0)
  {
    hide Step, PostAgrees;
    var t := Step(s, r).0;
    forall p | p in t.posts ensures PostAgrees(t, t.posts[p]) {
      NewPostAgrees(s, r, p);
      if p in s.posts && t.posts[p] == s.posts[p] {
        StepKeepsPost(s, r, s.posts[p]);
      }
    }
  }

  lemma StepKeepsFlows(s: State, r: Request)
    requires PostsAgree(s) && FlowsAgree(s)
    ensures FlowsAgree(Step(s, r).0)
  {
    hide Deadline;
  }

  lemma StepKeepsInv(s: State, r: Request)
    requires Inv(s)
    ensures Inv(Step(s, r).0)
  {
    hide Step, RequestsDistinct, PostsAgree, FlowsAgree;
    StepKeepsRequests(s, r);
    StepKeepsPosts(s, r);
    StepKeepsFlows(s, r);
  }

  lemma {:induction false} RunKeepsInv(s: State, run: seq<Request>)
    requires Inv(s)
    ensures Inv(After(s, run))
    decreases |run|
  {
    hide Inv, Step;
    if run != [] {
      StepKeepsInv(s, run[0]);
      RunKeepsInv(Step(s, run[0]).0, run[1..]);
    }
  }

  // One assertion at most is accepted for a request, and one outcome for a flow.

  /** How often a run receives an assertion that answers request `q`. */
  function Receptions(s: State, run: seq<Request>, q: Id): nat
    decreases |run|
  {
    if run == [] then 0
    else
      var (t, y) := Step(s, run[0]);
      (if y.Received? && y.assertion.inResponseTo == q then 1 else 0) + Receptions(t, run[1..], q)
  }

  /** How often a run receives this very assertion. */
  function Acceptances(s: State, run: seq<Request>, a: Assertion): nat
    decreases |run|
  {
    if run == [] then 0
    else
      var (t, y) := Step(s, run[0]);
      (if y.Received? && y.assertion == a then 1 else 0) + Acceptances(t, run[1..], a)
  }

  predicate Ends(y: Reply, f: Id) {
    (y.Completed? || y.Denied?) && y.flow == f
  }

  function Outcomes(s: State, run: seq<Request>, f: Id): nat
    decreases |run|
  {
    if run == [] then 0
    else
      var (t, y) := Step(s, run[0]);
      (if Ends(y, f) then 1 else 0) + Outcomes(t, run[1..], f)
  }

  /** No assertion for `q` can be received any more. */
  predicate Answered(s: State, q: Id) {
    && q < s.next
    && (forall b :: b in s.begins ==> s.begins[b].request != q)
    && (forall f :: f in s.flows && s.flows[f].request == q ==> s.flows[f].received.Some?)
  }

  lemma StepKeepsAnswered(s: State, r: Request, q: Id)
    requires Answered(s, q)
    ensures Answered(Step(s, r).0, q)
  {
  }

  lemma ReceivedIsAnswered(s: State, r: Request, q: Id)
    requires Inv(s) && Step(s, r).1.Received? && Step(s, r).1.assertion.inResponseTo == q
    ensures Answered(Step(s, r).0, q)
  {
    hide Deadline, FlowsAgree, Remembered;
    assert PostAgrees(s, s.posts[r.p]);
  }

  lemma AnsweredIsNotReceived(s: State, r: Request, q: Id)
    requires PostsAgree(s) && Answered(s, q) && Step(s, r).1.Received?
    ensures Step(s, r).1.assertion.inResponseTo != q
  {
    hide Deadline, Remembered;
    assert PostAgrees(s, s.posts[r.p]);
  }

  lemma {:induction false} AnsweredHasNoReception(s: State, run: seq<Request>, q: Id)
    requires Inv(s) && Answered(s, q)
    ensures Receptions(s, run, q) == 0
    decreases |run|
  {
    hide Step, Answered, RequestsDistinct, PostsAgree, FlowsAgree;
    if run != [] {
      StepKeepsInv(s, run[0]);
      StepKeepsAnswered(s, run[0], q);
      if Step(s, run[0]).1.Received? {
        AnsweredIsNotReceived(s, run[0], q);
      }
      AnsweredHasNoReception(Step(s, run[0]).0, run[1..], q);
    }
  }

  /** However flows, posts, configuration changes and sweeps interleave, at most
      one assertion is ever received in answer to a request. */
  lemma {:induction false} ReceivedAtMostOnce(s: State, run: seq<Request>, q: Id)
    requires Inv(s)
    ensures Receptions(s, run, q) <= 1
    decreases |run|
  {
    hide Step, Answered, Inv;
    if run != [] {
      var (t, y) := Step(s, run[0]);
      StepKeepsInv(s, run[0]);
      if y.Received? && y.assertion.inResponseTo == q {
        ReceivedIsAnswered(s, run[0], q);
        AnsweredHasNoReception(t, run[1..], q);
      } else {
        ReceivedAtMostOnce(t, run[1..], q);
      }
    }
  }

  lemma {:induction false} AcceptancesAreReceptions(s: State, run: seq<Request>, a: Assertion)
    ensures Acceptances(s, run, a) <= Receptions(s, run, a.inResponseTo)
    decreases |run|
  {
    hide Step;
    if run != [] {
      AcceptancesAreReceptions(Step(s, run[0]).0, run[1..], a);
    }
  }

  /** Each assertion is accepted at most once in a run, even after the row that
      remembers it was swept. */
  lemma AssertionAcceptedAtMostOnce(run: seq<Request>, a: Assertion)
    ensures Acceptances(Init(), run, a) <= 1
  {
    AcceptancesAreReceptions(Init(), run, a);
    ReceivedAtMostOnce(Init(), run, a.inResponseTo);
  }

  predicate Over(s: State, f: Id) {
    f < s.next && f !in s.flows
  }

  lemma StepKeepsOver(s: State, r: Request, f: Id)
    requires Over(s, f)
    ensures Over(Step(s, r).0, f) && !Ends(Step(s, r).1, f)
  {
  }

  lemma EndIsOver(s: State, r: Request, f: Id)
    requires RequestsDistinct(s) && Ends(Step(s, r).1, f)
    ensures Over(Step(s, r).0, f)
  {
    hide Deadline, Remembered;
  }

  lemma {:induction false} OverHasNoOutcome(s: State, run: seq<Request>, f: Id)
    requires Over(s, f)
    ensures Outcomes(s, run, f) == 0
    decreases |run|
  {
    hide Step, Over, Ends;
    if run != [] {
      StepKeepsOver(s, run[0], f);
      OverHasNoOutcome(Step(s, run[0]).0, run[1..], f);
    }
  }

  /** A flow produces at most one session, link, grant or denial. */
  lemma {:induction false} AtMostOneOutcome(s: State, run: seq<Request>, f: Id)
    requires Inv(s)
    ensures Outcomes(s, run, f) <= 1
    decreases |run|
  {
    hide Step, Over, Ends, RequestsDistinct, PostsAgree, FlowsAgree;
    if run != [] {
      var (t, y) := Step(s, run[0]);
      StepKeepsInv(s, run[0]);
      if Ends(y, f) {
        EndIsOver(s, run[0], f);
        OverHasNoOutcome(t, run[1..], f);
      } else {
        AtMostOneOutcome(t, run[1..], f);
      }
    }
  }

  /** An outcome comes after an assertion for the flow's own request was
      received, and before every end that assertion carries. */
  lemma OutcomeWithinAssertion(run: seq<Request>, r: Request, f: Id)
    requires Ends(Step(After(Init(), run), r).1, f)
    ensures var s := After(Init(), run);
            && f in s.flows && s.flows[f].received.Some?
            && var a := s.flows[f].received.value;
            && a.inResponseTo == s.flows[f].request
            && s.now < a.notOnOrAfter + SKEW && s.now < a.confirmedUntil + SKEW
            && (a.sessionUntil.Some? ==> s.now < a.sessionUntil.value + SKEW)
  {
    hide RequestsDistinct, PostsAgree;
    assert Inv(Init()) by { InitHasInv(); }
    RunKeepsInv(Init(), run);
  }

  // While a received assertion could still be presented, its id is remembered.

  predicate Blocked(s: State, key: (Id, Id), until: Time) {
    s.now >= until || (key in s.replays && s.replays[key] >= until)
  }

  /** How often a run receives an assertion of this issuer and id before `until`. */
  function Repeats(s: State, run: seq<Request>, key: (Id, Id), until: Time): nat
    decreases |run|
  {
    if run == [] then 0
    else
      var (t, y) := Step(s, run[0]);
      (if y.Received? && s.now < until && (s.posts[run[0].p].config.entity, y.assertion.id) == key then 1 else 0)
      + Repeats(t, run[1..], key, until)
  }

  lemma StepKeepsBlocked(s: State, r: Request, key: (Id, Id), until: Time)
    requires Blocked(s, key, until)
    ensures Blocked(Step(s, r).0, key, until)
    ensures Step(s, r).1.Received? && s.now < until ==> (s.posts[r.p].config.entity, Step(s, r).1.assertion.id) != key
  {
    hide Deadline;
  }

  lemma {:induction false} BlockedIsNotRepeated(s: State, run: seq<Request>, key: (Id, Id), until: Time)
    requires Blocked(s, key, until)
    ensures Repeats(s, run, key, until) == 0
    decreases |run|
  {
    if run != [] {
      StepKeepsBlocked(s, run[0], key, until);
      hide Step, Blocked;
      BlockedIsNotRepeated(Step(s, run[0]).0, run[1..], key, until);
    }
  }

  /** From its acceptance until its conditions end, no assertion of the same
      issuer and id is received again, not even for another request. */
  lemma AcceptedIdIsBlocked(s: State, r: Request, run: seq<Request>)
    requires Step(s, r).1.Received?
    ensures var a := Step(s, r).1.assertion;
            Repeats(Step(s, r).0, run, (s.posts[r.p].config.entity, a.id), a.notOnOrAfter + SKEW) == 0
  {
    var a := Step(s, r).1.assertion;
    BlockedIsNotRepeated(Step(s, r).0, run, (s.posts[r.p].config.entity, a.id), a.notOnOrAfter + SKEW);
  }

  // The configuration is the same from begin to the final commit.

  predicate Tagged(s: State) {
    s.config.Some? && s.config.value.etag < s.next
  }

  lemma StepTag(s: State, r: Request)
    requires Tagged(s)
    ensures var t := Step(s, r).0; Tagged(t) && (t.config == s.config || t.config.value.etag > s.config.value.etag)
  {
  }

  lemma {:induction false} TagsOnlyGrow(s: State, run: seq<Request>)
    requires Tagged(s)
    ensures var t := After(s, run);
            && Tagged(t) && t.config.value.etag >= s.config.value.etag
            && (t.config.value.etag == s.config.value.etag ==> t.config == s.config)
    decreases |run|
  {
    if run != [] {
      StepTag(s, run[0]);
      hide Step;
      TagsOnlyGrow(Step(s, run[0]).0, run[1..]);
    }
  }

  predicate Under(s: State, f: Id, etag: Id) {
    f < s.next && (f in s.flows ==> s.flows[f].etag == etag)
  }

  lemma StepKeepsUnder(s: State, r: Request, f: Id, etag: Id)
    requires Under(s, f, etag)
    ensures Under(Step(s, r).0, f, etag)
  {
  }

  lemma {:induction false} RunKeepsUnder(s: State, run: seq<Request>, f: Id, etag: Id)
    requires Under(s, f, etag)
    ensures Under(After(s, run), f, etag)
    decreases |run|
  {
    hide Step, Under;
    if run != [] {
      StepKeepsUnder(s, run[0], f, etag);
      RunKeepsUnder(Step(s, run[0]).0, run[1..], f, etag);
    }
  }

  lemma BeginIsUnder(s: State, r: Request)
    requires FlowsAgree(s) && Step(s, r).1.Begun?
    ensures s.config.Some? && Step(s, r).0.config == s.config && Tagged(Step(s, r).0)
    ensures Under(Step(s, r).0, Step(s, r).1.flow, s.config.value.etag)
  {
  }

  lemma EndNeedsTag(s: State, r: Request, f: Id, etag: Id)
    requires Under(s, f, etag) && Ends(Step(s, r).1, f)
    ensures s.config.Some? && s.config.value.etag == etag && s.config.value.enabled && Step(s, r).0.config == s.config
  {
  }

  lemma InitHasInv()
    ensures Inv(Init())
  {
  }

  /** If a flow begun by one request commits an outcome by another, then the
      configuration was the same, and enabled, in every state between: `between`
      and `rest` are any two parts of what ran from the one to the other. */
  lemma OutcomeUnderOneConfiguration(before: seq<Request>, begin: Request, between: seq<Request>, rest: seq<Request>,
      end: Request)
    ensures var s := After(Init(), before);
            var (s1, y) := Step(s, begin);
            var middle := After(s1, between);
            var last := After(middle, rest);
            y.Begun? && Ends(Step(last, end).1, y.flow) ==>
              && s.config.Some? && s.config.value.enabled && middle.config == s.config
              && last.config == s.config && Step(last, end).0.config == s.config
  {
    hide Step, RequestsDistinct, PostsAgree, FlowsAgree, Under;
    var s := After(Init(), before);
    var (s1, y) := Step(s, begin);
    var middle := After(s1, between);
    var last := After(middle, rest);
    if y.Begun? && Ends(Step(last, end).1, y.flow) {
      assert Inv(Init()) by { InitHasInv(); }
      RunKeepsInv(Init(), before);
      BeginIsUnder(s, begin);
      var etag := s.config.value.etag;
      RunKeepsUnder(s1, between, y.flow, etag);
      RunKeepsUnder(middle, rest, y.flow, etag);
      EndNeedsTag(last, end, y.flow, etag);
      TagsOnlyGrow(s1, between);
      TagsOnlyGrow(middle, rest);
    }
  }

  /** A flow that nothing gets in the way of is completed: begin, an assertion
      for its request that is in time and not remembered, and a granting verdict
      end in the outcome the flow was begun for. */
  lemma UndisturbedFlowIsCompleted(s: State, kind: Kind, a: Assertion)
    requires s.config.Some? && s.config.value.enabled
    requires a.inResponseTo == s.next + 1 && s.now < Deadline(a) && (s.config.value.entity, a.id) !in Remembered(s)
    ensures var s1 := Step(s, Load).0;
            var (s2, begun) := Step(s1, Start(s.next, kind));
            begun.Begun? &&
            var (s3, presented) := Step(s2, Present(begun.flow, a));
            presented.Presented? &&
            var (s4, received) := Step(s3, Receive(presented.p));
            received == Received(begun.flow, a)
              && Step(s4, Complete(begun.flow, begun.cookie, Grants)).1 == Completed(begun.flow, kind)
  {
    hide Deadline;
  }

  /** The transactions as they run, on the tables and on what goroutines hold. */
  class Server {
    var db: State

    constructor ()
      ensures db == Init()
    {
      db := Init();
    }

    method StoreDefinition(enabled: bool, entity: Id, document: nat)
      requires Inv(db)
      modifies this
      ensures db == Configured(old(db), enabled, entity, document) && Inv(db)
    {
      StepKeepsInv(db, Configure(enabled, entity, document));
      var etag := db.next;
      db := db.(next := etag + 1);
      db := db.(config := Some(Config(etag, enabled, entity, document)));
      db := db.(flows := map[]);
    }

    method BeginFlow(b: Id, kind: Kind) returns (y: Reply)
      requires Inv(db)
      modifies this
      ensures (db, y) == Started(old(db), b, kind) && Inv(db)
    {
      StepKeepsInv(db, Start(b, kind));
      if b !in db.begins { return Refused; }
      var read := db.begins[b];
      db := db.(begins := db.begins - {b});
      if db.config.None? || db.config.value.etag != read.config.etag || !db.config.value.enabled { return Refused; }
      var id, cookie := db.next, db.next + 1;
      db := db.(next := db.next + 2);
      db := db.(flows := db.flows[id := Flow(kind, cookie, read.config.etag, read.request, db.now + FLOW_TTL, None)]);
      return Begun(id, cookie);
    }

    /** The ends that a completion must not outlive, shortened one by one. */
    method Shorten(expires: Time, a: Assertion) returns (end: Time)
      ensures end == Min(expires, Deadline(a))
    {
      end := expires;
      var ends := [a.notOnOrAfter, a.confirmedUntil];
      for i := 0 to |ends|
        invariant i == 0 ==> end == expires
        invariant i == 1 ==> end == Min(expires, a.notOnOrAfter + SKEW)
        invariant i == 2 ==> end == Min(Min(expires, a.notOnOrAfter + SKEW), a.confirmedUntil + SKEW)
      {
        var deadline := ends[i] + SKEW;
        if deadline < end { end := deadline; }
      }
      if a.sessionUntil.Some? && a.sessionUntil.value + SKEW < end {
        end := a.sessionUntil.value + SKEW;
      }
    }

    /** The transaction of samlACS: nothing it wrote stays when it refuses. */
    method ReceiveAssertion(p: Id) returns (y: Reply)
      requires Inv(db)
      modifies this
      ensures (db, y) == Receiving(old(db), p) && Inv(db)
    {
      hide Inv, Deadline, Min;
      ReceivingKeepsInv(db, p);
      if p !in db.posts { return Refused; }
      var post, posts := db.posts[p], db.posts - {p};
      y := Refused;
      if db.config.None? || !db.config.value.enabled || db.config.value.etag != post.read.etag {
        db := db.(posts := posts);
        return;
      }
      var a := post.assertion;
      var replays, key := Remembered(db), (post.config.entity, a.id);
      var taken := key in replays;
      replays := replays[key := a.notOnOrAfter + SKEW];
      var expires := Shorten(post.read.expires, a);
      hide Remembered;
      if taken || post.flow !in db.flows || db.flows[post.flow].received.Some?
        || db.flows[post.flow].expires <= db.now {
        db := db.(posts := posts);
        return;
      }
      var flows := db.flows[post.flow := db.flows[post.flow].(received := Some(a), expires := expires)];
      db := db.(posts := posts, replays := replays, flows := flows);
      y := Received(post.flow, a);
    }

    static lemma ReceivingKeepsInv(s: State, p: Id)
      requires Inv(s)
      ensures Inv(Receiving(s, p).0)
    {
      hide Inv, Receiving;
      StepKeepsInv(s, Receive(p));
    }

    method CompleteFlow(f: Id, cookie: Id, verdict: Verdict) returns (y: Reply)
      requires Inv(db)
      modifies this
      ensures (db, y) == Completing(old(db), f, cookie, verdict) && Inv(db)
    {
      StepKeepsInv(db, Complete(f, cookie, verdict));
      if f !in db.flows || db.flows[f].expires <= db.now { return Refused; }
      var flow := db.flows[f];
      if flow.received.None? || flow.cookie != cookie { return Refused; }
      if db.config.None? || !db.config.value.enabled || db.config.value.etag != flow.etag { return Refused; }
      var tx := db.(flows := db.flows - {f});
      match verdict
      case Grants =>
        db := tx;
        return Completed(f, flow.kind);
      case Denies =>
        db := tx;
        return Denied(f);
      case Fails => return Refused;
    }
  }
}
