/** OIDC sign-in flows of internal/access/oidc.go: begin, callback and
    configuration change, each made of transactions that hold the installation
    lock, with reads and network exchanges between them in any interleaving.

    A flow is named by its row, standing for the state token whose digest finds
    the row. What a callback's goroutine holds between its two transactions is
    part of the state. */
module OidcFlows {
  import opened Common

  const FLOW_TTL: Time := 600

  datatype Config = Config(etag: Id, enabled: bool, document: nat)

  datatype Kind = Login | Link | Reauthenticate

  /** olp.oidc_flows, deleted with its sealed secret. */
  datatype Flow = Flow(kind: Kind, cookie: Id, etag: Id, expires: Time)

  /** A callback that consumed a flow and is exchanging its code. */
  datatype Callback = Callback(flow: Id, kind: Kind, config: Config)

  /** `begins` holds the configurations that starting flows have read. */
  datatype State = State(
    now: Time, next: Id, config: Option<Config>,
    flows: map<Id, Flow>, begins: map<Id, Config>, callbacks: map<Id, Callback>)

  /** What the verified claims, the identities and the initiating session decide
      in the callback's last transaction: a session, link or grant; a verified
      loss of authority, which commits; or an error, which does not. */
  datatype Verdict = Grants | Denies | Fails

  datatype Request =
    | Configure(enabled: bool, document: nat)
    | Load
    | Begin(b: Id, kind: Kind)
    | Consume(f: Id, cookie: Id)
    | Finish(k: Id, verdict: Verdict)
    | Sweep(gone: set<Id>)
    | Wait(until: Time)

  datatype Reply =
    | Refused
    | Done
    | Loaded(b: Id)
    | Begun(flow: Id, cookie: Id)
    | Consumed(k: Id)
    | Accepted(flow: Id, kind: Kind)
    | Denied(flow: Id)

  function Init(): State {
    State(0, 0, None, map[], map[], map[])
  }

  /** putOIDCConfiguration: a fresh entity tag, and no flow outlives it. */
  function Configured(s: State, enabled: bool, document: nat): State {
    s.(next := s.next + 1, config := Some(Config(s.next, enabled, document)), flows := map[])
  }

  /** The last transaction of beginOIDC. */
  function Began(s: State, b: Id, kind: Kind): (State, Reply) {
    if b !in s.begins then (s, Refused)
    else
      var read := s.begins[b];
      var s1 := s.(begins := s.begins - {b});
      if s.config.None? || s.config.value.etag != read.etag then (s1, Refused)
      else
        (s1.(next := s.next + 2, flows := s.flows[s.next := Flow(kind, s.next + 1, read.etag, s.now + FLOW_TTL)]),
         Begun(s.next, s.next + 1))
  }

  predicate Consumable(s: State, f: Id, cookie: Id) {
    && f in s.flows && s.flows[f].expires > s.now && s.flows[f].cookie == cookie
    && s.config.Some? && s.config.value.etag == s.flows[f].etag && s.config.value.enabled
  }

  /** consumeFlow: the flow is gone before any exchange with the provider. */
  function Consuming(s: State, f: Id, cookie: Id): (State, Reply) {
    if !Consumable(s, f, cookie) then (s, Refused)
    else
      (s.(next := s.next + 1, flows := s.flows - {f},
          callbacks := s.callbacks[s.next := Callback(f, s.flows[f].kind, s.config.value)]),
       Consumed(s.next))
  }

  /** The last transaction of oidcCallback. */
  function Finished(s: State, k: Id, verdict: Verdict): (State, Reply) {
    if k !in s.callbacks then (s, Refused)
    else
      var held := s.callbacks[k];
      var s1 := s.(callbacks := s.callbacks - {k});
      if s.config.None? || s.config.value.etag != held.config.etag || !s.config.value.enabled || verdict.Fails? then
        (s1, Refused)
      else (s1, if verdict.Grants? then Accepted(held.flow, held.kind) else Denied(held.flow))
  }

  function Step(s: State, r: Request): (State, Reply) {
    match r
    case Configure(enabled, document) => (Configured(s, enabled, document), Done)
    case Load =>
      if s.config.None? || !s.config.value.enabled then (s, Refused)
      else (s.(next := s.next + 1, begins := s.begins[s.next := s.config.value]), Loaded(s.next))
    case Begin(b, kind) => Began(s, b, kind)
    case Consume(f, cookie) => Consuming(s, f, cookie)
    case Finish(k, verdict) => Finished(s, k, verdict)
    case Sweep(gone) => (s.(flows := s.flows - set f | f in gone && f in s.flows && s.flows[f].expires <= s.now), Done)
    case Wait(until) => (s.(now := if until > s.now then until else s.now), Done)
  }

  function After(s: State, run: seq<Request>): State
    decreases |run|
  {
    if run == [] then s else After(Step(s, run[0]).0, run[1..])
  }

  // Invariant.

  predicate FlowsCurrent(s: State) {
    forall f :: f in s.flows ==> f < s.next && s.config.Some? && s.flows[f].etag == s.config.value.etag
  }

  predicate CallbacksDistinct(s: State) {
    && (forall k :: k in s.callbacks ==> k < s.next && s.callbacks[k].flow < s.next && s.callbacks[k].flow !in s.flows)
    && (forall k, l :: k in s.callbacks && l in s.callbacks && s.callbacks[k].flow == s.callbacks[l].flow ==> k == l)
  }

  predicate TagsDrawn(s: State) {
    && (s.config.Some? ==> s.config.value.etag < s.next)
    && (forall b :: b in s.begins ==> s.begins[b].etag < s.next)
  }

  predicate Inv(s: State) {
    FlowsCurrent(s) && CallbacksDistinct(s) && TagsDrawn(s)
  }

  lemma StepKeepsInv(s: State, r: Request)
    requires Inv(s)
    ensures Inv(Step(s, r).0)
  {
  }

  lemma {:induction false} RunKeepsInv(s: State, run: seq<Request>)
    requires Inv(s)
    ensures Inv(After(s, run))
    decreases |run|
  {
    hide Inv, Step;
    if run != [] {
      StepKeepsInv(s, run[0]);
      RunKeepsInv(Step(s, run[0]).0, run[1..]);
    }
  }

  // Each flow is consumed at most once and comes to at most one end.

  /** How often a run consumes a flow, and how often it commits an outcome for it. */
  function Consumptions(s: State, run: seq<Request>, f: Id): nat
    decreases |run|
  {
    if run == [] then 0
    else
      var (t, y) := Step(s, run[0]);
      (if run[0].Consume? && run[0].f == f && y.Consumed? then 1 else 0) + Consumptions(t, run[1..], f)
  }

  predicate Ends(y: Reply, f: Id) {
    (y.Accepted? || y.Denied?) && y.flow == f
  }

  function Outcomes(s: State, run: seq<Request>, f: Id): nat
    decreases |run|
  {
    if run == [] then 0
    else
      var (t, y) := Step(s, run[0]);
      (if Ends(y, f) then 1 else 0) + Outcomes(t, run[1..], f)
  }

  predicate Gone(s: State, f: Id) {
    f < s.next && f !in s.flows
  }

  predicate Over(s: State, f: Id) {
    Gone(s, f) && forall k :: k in s.callbacks ==> s.callbacks[k].flow != f
  }

  lemma StepKeepsGone(s: State, r: Request, f: Id)
    requires Gone(s, f)
    ensures Gone(Step(s, r).0, f)
    ensures Over(s, f) ==> Over(Step(s, r).0, f)
  {
  }

  lemma EndIsOver(s: State, r: Request, f: Id)
    requires Inv(s) && Ends(Step(s, r).1, f)
    ensures Over(Step(s, r).0, f)
  {
    assert s.callbacks[r.k].flow == f;
  }

  lemma {:induction false} GoneIsNotConsumed(s: State, run: seq<Request>, f: Id)
    requires Gone(s, f)
    ensures Consumptions(s, run, f) == 0
    decreases |run|
  {
    if run != [] {
      StepKeepsGone(s, run[0], f);
      GoneIsNotConsumed(Step(s, run[0]).0, run[1..], f);
    }
  }

  lemma {:induction false} OverHasNoOutcome(s: State, run: seq<Request>, f: Id)
    requires Over(s, f)
    ensures Outcomes(s, run, f) == 0
    decreases |run|
  {
    if run != [] {
      StepKeepsGone(s, run[0], f);
      OverHasNoOutcome(Step(s, run[0]).0, run[1..], f);
    }
  }

  /** Under every interleaving, a flow is consumed at most once. */
  lemma {:induction false} ConsumedAtMostOnce(s: State, run: seq<Request>, f: Id)
    requires Inv(s)
    ensures Consumptions(s, run, f) <= 1
    decreases |run|
  {
    if run != [] {
      var (t, y) := Step(s, run[0]);
      StepKeepsInv(s, run[0]);
      if run[0].Consume? && run[0].f == f && y.Consumed? {
        GoneIsNotConsumed(t, run[1..], f);
      } else {
        hide Step;
        ConsumedAtMostOnce(t, run[1..], f);
      }
    }
  }

  /** Under every interleaving, a flow produces at most one session, link, grant
      or denial. */
  lemma {:induction false} AtMostOneOutcome(s: State, run: seq<Request>, f: Id)
    requires Inv(s)
    ensures Outcomes(s, run, f) <= 1
    decreases |run|
  {
    hide Step, Inv;
    if run != [] {
      var (t, y) := Step(s, run[0]);
      StepKeepsInv(s, run[0]);
      if Ends(y, f) {
        EndIsOver(s, run[0], f);
        OverHasNoOutcome(t, run[1..], f);
      } else {
        AtMostOneOutcome(t, run[1..], f);
      }
    }
  }

  // The configuration is the same from begin to the final commit.

  predicate Tagged(s: State) {
    s.config.Some? && s.config.value.etag < s.next
  }

  lemma StepTag(s: State, r: Request)
    requires Tagged(s)
    ensures var t := Step(s, r).0; Tagged(t) && (t.config == s.config || t.config.value.etag > s.config.value.etag)
  {
  }

  lemma {:induction false} TagsOnlyGrow(s: State, run: seq<Request>)
    requires Tagged(s)
    ensures var t := After(s, run);
            && Tagged(t) && t.config.value.etag >= s.config.value.etag
            && (t.config.value.etag == s.config.value.etag ==> t.config == s.config)
    decreases |run|
  {
    if run != [] {
      StepTag(s, run[0]);
      hide Step;
      TagsOnlyGrow(Step(s, run[0]).0, run[1..]);
    }
  }

  /** Flow `f` was begun under the configuration tagged `etag`. */
  predicate Under(s: State, f: Id, etag: Id) {
    && f < s.next
    && (f in s.flows ==> s.flows[f].etag == etag)
    && (forall k :: k in s.callbacks && s.callbacks[k].flow == f ==> s.callbacks[k].config.etag == etag)
  }

  lemma StepKeepsUnder(s: State, r: Request, f: Id, etag: Id)
    requires Under(s, f, etag)
    ensures Under(Step(s, r).0, f, etag)
  {
  }

  lemma {:induction false} RunKeepsUnder(s: State, run: seq<Request>, f: Id, etag: Id)
    requires Under(s, f, etag)
    ensures Under(After(s, run), f, etag)
    decreases |run|
  {
    hide Step, Under;
    if run != [] {
      StepKeepsUnder(s, run[0], f, etag);
      RunKeepsUnder(Step(s, run[0]).0, run[1..], f, etag);
    }
  }

  lemma BeginIsUnder(s: State, r: Request)
    requires Inv(s) && Step(s, r).1.Begun?
    ensures s.config.Some? && Step(s, r).0.config == s.config && Tagged(Step(s, r).0)
    ensures Under(Step(s, r).0, Step(s, r).1.flow, s.config.value.etag)
  {
  }

  lemma EndNeedsTag(s: State, r: Request, f: Id, etag: Id)
    requires Under(s, f, etag) && Ends(Step(s, r).1, f)
    ensures s.config.Some? && s.config.value.etag == etag && s.config.value.enabled && Step(s, r).0.config == s.config
  {
  }

  /** If a flow begun by one request commits an outcome by another, then the
      configuration was the same, and enabled, in every state between: `between`
      and `rest` are any two parts of what ran from the one to the other. */
  lemma OutcomeUnderOneConfiguration(before: seq<Request>, begin: Request, between: seq<Request>, rest: seq<Request>,
      end: Request)
    ensures var s := After(Init(), before);
            var (s1, y) := Step(s, begin);
            var middle := After(s1, between);
            var last := After(middle, rest);
            y.Begun? && Ends(Step(last, end).1, y.flow) ==>
              && s.config.Some? && s.config.value.enabled && middle.config == s.config
              && last.config == s.config && Step(last, end).0.config == s.config
  {
    hide Step, Inv, Under;
    var s := After(Init(), before);
    var (s1, y) := Step(s, begin);
    var middle := After(s1, between);
    var last := After(middle, rest);
    if y.Begun? && Ends(Step(last, end).1, y.flow) {
      assert Inv(Init()) by { InitHasInv(); }
      RunKeepsInv(Init(), before);
      BeginIsUnder(s, begin);
      var etag := s.config.value.etag;
      RunKeepsUnder(s1, between, y.flow, etag);
      RunKeepsUnder(middle, rest, y.flow, etag);
      EndNeedsTag(last, end, y.flow, etag);
      TagsOnlyGrow(s1, between);
      TagsOnlyGrow(middle, rest);
    }
  }

  lemma InitHasInv()
    ensures Inv(Init())
  {
  }

  /** A flow that nothing gets in the way of is accepted: from any state with an
      enabled configuration, begin, callback and a granting verdict end in the
      outcome the flow was begun for. */
  lemma UndisturbedFlowIsAccepted(s: State, kind: Kind)
    requires Inv(s) && s.config.Some? && s.config.value.enabled
    ensures var s1 := Step(s, Load).0;
            var (s2, begun) := Step(s1, Begin(s.next, kind));
            begun.Begun? &&
            var (s3, consumed) := Step(s2, Consume(begun.flow, begun.cookie));
            consumed.Consumed? && Step(s3, Finish(consumed.k, Grants)).1 == Accepted(begun.flow, kind)
  {
  }

  /** The transactions as they run, on the tables and on what goroutines hold. */
  class Server {
    var db: State

    constructor ()
      ensures db == Init()
    {
      db := Init();
    }

    method PutConfiguration(enabled: bool, document: nat)
      requires Inv(db)
      modifies this
      ensures db == Configured(old(db), enabled, document) && Inv(db)
    {
      StepKeepsInv(db, Configure(enabled, document));
      var etag := db.next;
      db := db.(next := etag + 1);
      db := db.(config := Some(Config(etag, enabled, document)));
      db := db.(flows := map[]);
    }

    method BeginFlow(b: Id, kind: Kind) returns (y: Reply)
      requires Inv(db)
      modifies this
      ensures (db, y) == Began(old(db), b, kind) && Inv(db)
    {
      StepKeepsInv(db, Begin(b, kind));
      if b !in db.begins { return Refused; }
      var read := db.begins[b];
      db := db.(begins := db.begins - {b});
      if db.config.None? || db.config.value.etag != read.etag { return Refused; }
      var id, cookie := db.next, db.next + 1;
      db := db.(next := db.next + 2);
      db := db.(flows := db.flows[id := Flow(kind, cookie, read.etag, db.now + FLOW_TTL)]);
      return Begun(id, cookie);
    }

    method ConsumeFlow(f: Id, cookie: Id) returns (y: Reply)
      requires Inv(db)
      modifies this
      ensures (db, y) == Consuming(old(db), f, cookie) && Inv(db)
    {
      StepKeepsInv(db, Consume(f, cookie));
      if f !in db.flows || db.flows[f].expires <= db.now { return Refused; }
      var flow := db.flows[f];
      if flow.cookie != cookie { return Refused; }
      if db.config.None? || db.config.value.etag != flow.etag || !db.config.value.enabled { return Refused; }
      db := db.(flows := db.flows - {f});
      var k := db.next;
      db := db.(next := k + 1, callbacks := db.callbacks[k := Callback(f, flow.kind, db.config.value)]);
      return Consumed(k);
    }

    method FinishCallback(k: Id, verdict: Verdict) returns (y: Reply)
      requires Inv(db)
      modifies this
      ensures (db, y) == Finished(old(db), k, verdict) && Inv(db)
    {
      StepKeepsInv(db, Finish(k, verdict));
      if k !in db.callbacks { return Refused; }
      var held := db.callbacks[k];
      db := db.(callbacks := db.callbacks - {k});
      if db.config.None? || db.config.value.etag != held.config.etag || !db.config.value.enabled { return Refused; }
      match verdict
      case Grants => return Accepted(held.flow, held.kind);
      case Denies => return Denied(held.flow);
      case Fails => return Refused;
    }
  }
}
