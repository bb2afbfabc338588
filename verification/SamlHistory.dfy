/** What every outcome of a SAML flow goes back to, and exactly when an assertion
    is received and a completion commits. */
module SamlHistory {
  import opened Common
  import opened SamlFlows

  lemma StepKeepsTime(s: State, r: Request)
    ensures s.now <= Step(s, r).0.now
  {
  }

  lemma {:induction false} RunKeepsTime(s: State, run: seq<Request>)
    ensures s.now <= After(s, run).now
    decreases |run|
  {
    hide Step;
    if run != [] {
      StepKeepsTime(s, run[0]);
      RunKeepsTime(Step(s, run[0]).0, run[1..]);
    }
  }

  // Exactly when an assertion is received.

  predicate Posted(s: State, p: Id, post: Post) {
    p in s.posts && s.posts[p] == post
  }

  predicate Dropped(s: State, p: Id) {
    p < s.next && p !in s.posts
  }

  predicate Unposted(run: seq<Request>, p: Id) {
    Receive(p) !in run
  }

  lemma StepKeepsPosted(s: State, r: Request, p: Id, post: Post)
    requires p < s.next && Posted(s, p, post)
    ensures var t := Step(s, r).0; if r == Receive(p) then Dropped(t, p) else p < t.next && Posted(t, p, post)
  {
    hide Deadline, Remembered;
  }

  lemma StepKeepsDropped(s: State, r: Request, p: Id)
    requires Dropped(s, p)
    ensures Dropped(Step(s, r).0, p)
  {
    hide Deadline, Remembered;
  }

  lemma {:induction false} RunKeepsDropped(s: State, run: seq<Request>, p: Id)
    requires Dropped(s, p)
    ensures Dropped(After(s, run), p)
    decreases |run|
  {
    hide Step, Dropped;
    if run != [] {
      StepKeepsDropped(s, run[0], p);
      RunKeepsDropped(Step(s, run[0]).0, run[1..], p);
    }
  }

  lemma {:induction false} PostedExactlyWhen(s: State, run: seq<Request>, p: Id, post: Post)
    requires p < s.next && Posted(s, p, post)
    ensures if Unposted(run, p) then Posted(After(s, run), p, post) else Dropped(After(s, run), p)
    decreases |run|
  {
    hide Step, Posted, Dropped;
    if run != [] {
      var t := Step(s, run[0]).0;
      StepKeepsPosted(s, run[0], p, post);
      assert forall r :: r in run <==> r == run[0] || r in run[1..];
      if run[0] == Receive(p) {
        RunKeepsDropped(t, run[1..], p);
      } else {
        PostedExactlyWhen(t, run[1..], p, post);
      }
    }
  }

  predicate Unconfigured(run: seq<Request>) {
    forall r :: r in run ==> !r.Configure?
  }

  lemma StepConfig(s: State, r: Request)
    requires Tagged(s)
    ensures var t := Step(s, r).0; Tagged(t) && (r.Configure? <==> t.config.value.etag > s.config.value.etag)
    ensures !r.Configure? ==> Step(s, r).0.config == s.config
  {
    hide Deadline, Remembered;
  }

  lemma {:induction false} ConfigExactlyWhen(s: State, run: seq<Request>)
    requires Tagged(s)
    ensures Tagged(After(s, run))
    ensures if Unconfigured(run) then After(s, run).config == s.config
            else After(s, run).config.value.etag > s.config.value.etag
    decreases |run|
  {
    hide Step;
    if run != [] {
      var t := Step(s, run[0]).0;
      StepConfig(s, run[0]);
      assert forall r :: r in run <==> r == run[0] || r in run[1..];
      ConfigExactlyWhen(t, run[1..]);
    }
  }

  lemma PresentPosts(s: State, f: Id, a: Assertion)
    requires Inv(s) && Step(s, Present(f, a)).1.Presented?
    ensures var (t, y) := Step(s, Present(f, a));
            && f in s.flows && s.config.Some? && s.config.value.enabled && s.config.value.etag == s.flows[f].etag
            && Tagged(t) && t.config == s.config && y.p < t.next
               && Posted(t, y.p, Post(f, s.flows[f], s.config.value, a))
  {
    hide Deadline;
  }

  /** The issuer's assertion id is not remembered. */
  predicate Unused(s: State, entity: Id, id: Id) {
    (entity, id) in s.replays ==> s.replays[(entity, id)] <= s.now
  }

  lemma ReceiveTakes(s: State, p: Id)
    requires Tagged(s)
    ensures Dropped(s, p) ==> Step(s, Receive(p)).1 == Refused
    ensures forall post :: Posted(s, p, post) ==>
              Step(s, Receive(p)).1 ==
              if && s.config.value.enabled && s.config.value.etag == post.read.etag
                 && post.flow in s.flows && s.flows[post.flow].received.None? && s.now < s.flows[post.flow].expires
                 && Unused(s, post.config.entity, post.assertion.id)
              then Received(post.flow, post.assertion) else Refused
  {
    hide Deadline;
  }

  /** Once an assertion was presented and verified, its transaction receives it
      if and only if it comes for the first time, no configuration was stored
      since, the flow still waits for one and is not over, and the issuer's
      assertion id is not remembered. */
  lemma ReceivedExactlyWhen(before: seq<Request>, f: Id, a: Assertion, between: seq<Request>)
    requires Step(After(Init(), before), Present(f, a)).1.Presented?
    ensures var s := After(Init(), before);
            var (s1, y) := Step(s, Present(f, a));
            var m := After(s1, between);
            && s.config.Some?
            && Step(m, Receive(y.p)).1 ==
               if && Unposted(between, y.p) && Unconfigured(between)
                  && f in m.flows && m.flows[f].received.None? && m.now < m.flows[f].expires
                  && Unused(m, s.config.value.entity, a.id)
               then Received(f, a) else Refused
  {
    var s := After(Init(), before);
    var (s1, y) := Step(s, Present(f, a));
    assert Inv(Init()) by { InitHasInv(); }
    RunKeepsInv(Init(), before);
    PresentPosts(s, f, a);
    hide Step, Posted, Dropped, Inv, Unused;
    PostedExactlyWhen(s1, between, y.p, Post(f, s.flows[f], s.config.value, a));
    ConfigExactlyWhen(s1, between);
    ReceiveTakes(After(s1, between), y.p);
  }

  /** An assertion is taken for verification if and only if the flow is there,
      not over and still waits for one, the enabled configuration is the one it
      was begun under, and the assertion answers the flow's request and is before
      every end it carries. */
  lemma PresentedExactlyWhen(s: State, f: Id, a: Assertion)
    ensures var (t, y) := Step(s, Present(f, a));
            && (y.Presented? <==>
                  && f in s.flows && s.now < s.flows[f].expires && s.flows[f].received.None?
                  && s.config.Some? && s.config.value.enabled && s.config.value.etag == s.flows[f].etag
                  && a.inResponseTo == s.flows[f].request && s.now < a.notOnOrAfter + 90
                     && s.now < a.confirmedUntil + 90
                  && (a.sessionUntil.Some? ==> s.now < a.sessionUntil.value + 90))
            && (y.Presented? || (y.Refused? && t == s))
  {
  }

  // Exactly when a flow is begun.

  predicate Reading(s: State, b: Id, read: SamlFlows.Begin) {
    b in s.begins && s.begins[b] == read
  }

  predicate Ended(s: State, b: Id) {
    b < s.next && b !in s.begins
  }

  predicate Unbegun(run: seq<Request>, b: Id) {
    forall r :: r in run ==> !(r.Start? && r.b == b)
  }

  lemma StepKeepsReading(s: State, r: Request, b: Id, read: SamlFlows.Begin)
    requires b < s.next && Reading(s, b, read)
    ensures var t := Step(s, r).0; if r.Start? && r.b == b then Ended(t, b) else b < t.next && Reading(t, b, read)
  {
    hide Deadline, Remembered;
  }

  lemma StepKeepsEnded(s: State, r: Request, b: Id)
    requires Ended(s, b)
    ensures Ended(Step(s, r).0, b)
  {
    hide Deadline, Remembered;
  }

  lemma {:induction false} RunKeepsEnded(s: State, run: seq<Request>, b: Id)
    requires Ended(s, b)
    ensures Ended(After(s, run), b)
    decreases |run|
  {
    hide Step, Ended;
    if run != [] {
      StepKeepsEnded(s, run[0], b);
      RunKeepsEnded(Step(s, run[0]).0, run[1..], b);
    }
  }

  lemma {:induction false} ReadingExactlyWhen(s: State, run: seq<Request>, b: Id, read: SamlFlows.Begin)
    requires b < s.next && Reading(s, b, read)
    ensures if Unbegun(run, b) then Reading(After(s, run), b, read) else Ended(After(s, run), b)
    decreases |run|
  {
    hide Step, Reading, Ended;
    if run != [] {
      var t := Step(s, run[0]).0;
      StepKeepsReading(s, run[0], b, read);
      assert forall r :: r in run <==> r == run[0] || r in run[1..];
      if run[0].Start? && run[0].b == b {
        RunKeepsEnded(t, run[1..], b);
      } else {
        ReadingExactlyWhen(t, run[1..], b, read);
      }
    }
  }

  lemma LoadReads(s: State)
    requires FlowsAgree(s)
    ensures var (t, y) := Step(s, Load);
            && (y.Loaded? <==> s.config.Some? && s.config.value.enabled)
            && (y.Loaded? ==>
                  && y.b < t.next && y.b in t.begins && t.begins[y.b].config == s.config.value
                  && Tagged(t) && t.config == s.config)
  {
  }

  lemma StartAnswers(s: State, b: Id, kind: Kind)
    requires Tagged(s)
    ensures Ended(s, b) ==> Step(s, Start(b, kind)).1 == Refused
    ensures forall read :: Reading(s, b, read) ==>
              (Step(s, Start(b, kind)).1.Begun? <==> s.config.value.etag == read.config.etag && s.config.value.enabled)
  {
  }

  /** A flow is begun if and only if the configuration it was read under was
      enabled and is the one stored since, and its transaction comes for the
      first time. */
  lemma BegunExactlyWhen(before: seq<Request>, between: seq<Request>, kind: Kind)
    ensures var s := After(Init(), before);
            var (s1, y) := Step(s, Load);
            && (y.Loaded? <==> s.config.Some? && s.config.value.enabled)
            && (y.Loaded? ==>
                  (Step(After(s1, between), Start(y.b, kind)).1.Begun? <==>
                      Unbegun(between, y.b) && Unconfigured(between)))
  {
    var s := After(Init(), before);
    var (s1, y) := Step(s, Load);
    assert Inv(Init()) by { InitHasInv(); }
    RunKeepsInv(Init(), before);
    LoadReads(s);
    if y.Loaded? {
      var read := s1.begins[y.b];
      assert Reading(s1, y.b, read);
      hide Step, Reading, Ended, Inv;
      ReadingExactlyWhen(s1, between, y.b, read);
      ConfigExactlyWhen(s1, between);
      StartAnswers(After(s1, between), y.b, kind);
    }
  }

  // Exactly when a completion commits.

  predicate Intact(s: State, f: Id, flow: Flow) {
    && f in s.flows && s.flows[f] == flow && flow.received.Some?
    && s.config.Some? && s.config.value.etag == flow.etag && s.config.value.enabled
  }

  /** No configuration was stored, and no completion with the flow's cookie
      committed. */
  predicate Untouched(run: seq<Request>, f: Id, cookie: Id) {
    forall r :: r in run ==> !r.Configure? && !(r.Complete? && r.f == f && r.cookie == cookie && !r.verdict.Fails?)
  }

  lemma StepKeepsIntact(s: State, r: Request, f: Id, flow: Flow)
    requires f < s.next && Intact(s, f, flow) && s.now < flow.expires
    ensures var t := Step(s, r).0;
            if r.Configure? || (r.Complete? && r.f == f && r.cookie == flow.cookie && !r.verdict.Fails?) then Over(t, f)
            else f < t.next && Intact(t, f, flow)
  {
    hide Deadline, Remembered;
  }

  lemma {:induction false} RunKeepsOver(s: State, run: seq<Request>, f: Id)
    requires Over(s, f)
    ensures Over(After(s, run), f)
    decreases |run|
  {
    hide Step, Over;
    if run != [] {
      StepKeepsOver(s, run[0], f);
      RunKeepsOver(Step(s, run[0]).0, run[1..], f);
    }
  }

  lemma {:induction false} IntactExactlyWhen(s: State, run: seq<Request>, f: Id, flow: Flow)
    requires f < s.next && Intact(s, f, flow) && After(s, run).now < flow.expires
    ensures if Untouched(run, f, flow.cookie) then Intact(After(s, run), f, flow) else Over(After(s, run), f)
    decreases |run|
  {
    hide Step, Intact, Over;
    if run != [] {
      RunKeepsTime(s, run);
      var r, t := run[0], Step(s, run[0]).0;
      StepKeepsIntact(s, r, f, flow);
      assert forall q :: q in run <==> q == r || q in run[1..];
      if r.Configure? || (r.Complete? && r.f == f && r.cookie == flow.cookie && !r.verdict.Fails?) {
        RunKeepsOver(t, run[1..], f);
      } else {
        RunKeepsTime(t, run[1..]);
        IntactExactlyWhen(t, run[1..], f, flow);
      }
    }
  }

  /** While it is there, the received flow stands as it was received. */
  predicate Bound(s: State, f: Id, flow: Flow) {
    f < s.next && (f in s.flows ==> s.flows[f] == flow)
  }

  lemma StepKeepsBound(s: State, r: Request, f: Id, flow: Flow)
    requires Bound(s, f, flow) && flow.received.Some?
    ensures Bound(Step(s, r).0, f, flow)
  {
    hide Deadline, Remembered;
  }

  lemma {:induction false} RunKeepsBound(s: State, run: seq<Request>, f: Id, flow: Flow)
    requires Bound(s, f, flow) && flow.received.Some?
    ensures Bound(After(s, run), f, flow)
    decreases |run|
  {
    hide Step, Bound;
    if run != [] {
      StepKeepsBound(s, run[0], f, flow);
      RunKeepsBound(Step(s, run[0]).0, run[1..], f, flow);
    }
  }

  lemma ReceptionIsIntact(s: State, p: Id)
    requires Inv(s) && Step(s, Receive(p)).1.Received?
    ensures var (t, y) := Step(s, Receive(p));
            y.flow < t.next && y.flow in t.flows && Intact(t, y.flow, t.flows[y.flow])
              && Bound(t, y.flow, t.flows[y.flow])
  {
    hide Deadline, Remembered;
    assert PostAgrees(s, s.posts[p]);
  }

  lemma CompleteEnds(s: State, f: Id, flow: Flow, cookie: Id, verdict: Verdict)
    requires Bound(s, f, flow)
    ensures var y := Step(s, Complete(f, cookie, verdict)).1;
            && (Intact(s, f, flow) && s.now < flow.expires && cookie == flow.cookie && !verdict.Fails? ==>
                  y == if verdict.Grants? then Completed(f, flow.kind) else Denied(f))
            && (Over(s, f) || s.now >= flow.expires || cookie != flow.cookie || verdict.Fails? ==> y == Refused)
  {
  }

  /** Once an assertion was received, a completion commits if and only if it
      brings the flow's cookie before the flow's end, no configuration was stored
      and no other completion committed since, and the verdict is no failure:
      then the outcome the verdict gives, of the kind the flow was begun for. */
  lemma CompletedExactlyWhen(before: seq<Request>, p: Id, between: seq<Request>, cookie: Id, verdict: Verdict)
    requires Step(After(Init(), before), Receive(p)).1.Received?
    ensures var (s1, y) := Step(After(Init(), before), Receive(p));
            var m, f := After(s1, between), y.flow;
            && f in s1.flows
            && Step(m, Complete(f, cookie, verdict)).1 ==
               if || verdict.Fails? || cookie != s1.flows[f].cookie || m.now >= s1.flows[f].expires
                  || !Untouched(between, f, s1.flows[f].cookie)
               then Refused else if verdict.Grants? then Completed(f, s1.flows[f].kind) else Denied(f)
  {
    var s := After(Init(), before);
    var (s1, y) := Step(s, Receive(p));
    var m, f := After(s1, between), y.flow;
    assert Inv(Init()) by { InitHasInv(); }
    RunKeepsInv(Init(), before);
    ReceptionIsIntact(s, p);
    var flow := s1.flows[f];
    assert flow.received.Some?;
    hide Step, Intact, Bound, Over, Inv;
    RunKeepsBound(s1, between, f, flow);
    CompleteEnds(m, f, flow, cookie, verdict);
    if m.now < flow.expires {
      IntactExactlyWhen(s1, between, f, flow);
    }
  }

  // What an outcome goes back to.

  /** The flow was begun as this, whatever it received since. */
  predicate Begins(s: State, f: Id, kind: Kind, cookie: Id, request: Id, until: Time) {
    && f < s.next
    && (f in s.flows ==> && s.flows[f].kind == kind && s.flows[f].cookie == cookie && s.flows[f].request == request
                         && s.flows[f].expires <= until)
    && (forall p :: p in s.posts && s.posts[p].flow == f ==> s.posts[p].read.expires <= until)
  }

  lemma StepKeepsBegins(s: State, r: Request, f: Id, kind: Kind, cookie: Id, request: Id, until: Time)
    requires Begins(s, f, kind, cookie, request, until)
    ensures Begins(Step(s, r).0, f, kind, cookie, request, until)
  {
    hide Deadline, Remembered;
  }

  lemma {:induction false} RunKeepsBegins(
    s: State, run: seq<Request>, f: Id, kind: Kind, cookie: Id, request: Id, until: Time)
    requires Begins(s, f, kind, cookie, request, until)
    ensures Begins(After(s, run), f, kind, cookie, request, until)
    decreases |run|
  {
    hide Step, Begins;
    if run != [] {
      StepKeepsBegins(s, run[0], f, kind, cookie, request, until);
      RunKeepsBegins(Step(s, run[0]).0, run[1..], f, kind, cookie, request, until);
    }
  }

  lemma StepAddsFlow(s: State, r: Request, f: Id)
    requires PostsAgree(s) && f !in s.flows && f in Step(s, r).0.flows
    ensures var (t, y) := Step(s, r); var flow := t.flows[f];
            && r.Start? && r.kind == flow.kind && y == Begun(f, flow.cookie) && t.now == s.now
            && Begins(t, f, flow.kind, flow.cookie, flow.request, s.now + 300)
  {
    hide Deadline, Remembered;
    if r.Start? {
      assert forall p :: p in s.posts ==> PostAgrees(s, s.posts[p]);
    }
  }

  /** Where in a run a flow was begun. */
  lemma {:induction false} FindStart(s: State, run: seq<Request>, f: Id)
      returns (a: seq<Request>, start: Request, b: seq<Request>, cookie: Id, request: Id)
    requires Inv(s) && f !in s.flows && f in After(s, run).flows
    ensures run == a + [start] + b && start.Start?
    ensures Step(After(s, a), start).1 == Begun(f, cookie)
    ensures Begins(After(s, run), f, start.kind, cookie, request, After(s, a).now + 300)
    decreases |run|
  {
    var t := Step(s, run[0]).0;
    StepKeepsInv(s, run[0]);
    if f in t.flows {
      StepAddsFlow(s, run[0], f);
      hide Step, Begins;
      cookie, request := t.flows[f].cookie, t.flows[f].request;
      RunKeepsBegins(t, run[1..], f, t.flows[f].kind, cookie, request, s.now + 300);
      a, start, b := [], run[0], run[1..];
      assert After(s, a) == s;
    } else {
      hide Step, Inv, Begins;
      var c;
      c, start, b, cookie, request := FindStart(t, run[1..], f);
      a := [run[0]] + c;
      assert a[1..] == c;
    }
  }

  lemma StepAddsPost(s: State, r: Request, p: Id)
    requires p !in s.posts && p in Step(s, r).0.posts
    ensures var (t, y) := Step(s, r); var post := t.posts[p];
            && r == Present(post.flow, post.assertion) && y == Presented(p) && p < t.next
            && post.flow in s.flows && post.read == s.flows[post.flow] && s.now < post.read.expires
            && post.assertion.inResponseTo == post.read.request
  {
    hide Deadline, Remembered;
  }

  predicate PostKept(s: State, p: Id, post: Post) {
    p < s.next && (p in s.posts ==> s.posts[p] == post)
  }

  lemma StepKeepsPostKept(s: State, r: Request, p: Id, post: Post)
    requires PostKept(s, p, post)
    ensures PostKept(Step(s, r).0, p, post)
  {
    hide Deadline, Remembered;
  }

  lemma {:induction false} RunKeepsPostKept(s: State, run: seq<Request>, p: Id, post: Post)
    requires PostKept(s, p, post)
    ensures PostKept(After(s, run), p, post)
    decreases |run|
  {
    hide Step, PostKept;
    if run != [] {
      StepKeepsPostKept(s, run[0], p, post);
      RunKeepsPostKept(Step(s, run[0]).0, run[1..], p, post);
    }
  }

  /** Where in a run an assertion was presented. */
  lemma {:induction false} FindPresent(s: State, run: seq<Request>, p: Id) returns (a: seq<Request>, b: seq<Request>)
    requires p !in s.posts && p in After(s, run).posts
    ensures var post, m := After(s, run).posts[p], After(s, a);
            && run == a + [Present(post.flow, post.assertion)] + b
            && Step(m, Present(post.flow, post.assertion)).1 == Presented(p)
            && post.flow in m.flows && post.assertion.inResponseTo == m.flows[post.flow].request
    decreases |run|
  {
    var t := Step(s, run[0]).0;
    if p in t.posts {
      StepAddsPost(s, run[0], p);
      RunKeepsPostKept(t, run[1..], p, t.posts[p]);
      a, b := [], run[1..];
      assert After(s, a) == s;
    } else {
      hide Step;
      var c;
      c, b := FindPresent(t, run[1..], p);
      a := [run[0]] + c;
      assert a[1..] == c;
    }
  }

  predicate HasReceived(s: State, f: Id) {
    f in s.flows && s.flows[f].received.Some?
  }

  lemma StepReceives(s: State, r: Request, f: Id)
    requires RequestsDistinct(s) && !HasReceived(s, f) && HasReceived(Step(s, r).0, f)
    ensures var (t, y) := Step(s, r);
            && r.Receive? && r.p in s.posts && s.posts[r.p].flow == f && Bound(t, f, t.flows[f])
            && t.flows[f].received == Some(s.posts[r.p].assertion) && y == Received(f, s.posts[r.p].assertion)
  {
    hide Deadline, Remembered;
  }

  /** Where in a run a flow received its assertion. */
  lemma {:induction false} FindReceive(s: State, run: seq<Request>, f: Id)
      returns (a: seq<Request>, p: Id, b: seq<Request>)
    requires Inv(s) && !HasReceived(s, f) && HasReceived(After(s, run), f)
    ensures var m := After(s, a);
            && run == a + [Receive(p)] + b && p in m.posts && m.posts[p].flow == f
            && After(s, run).flows[f].received == Some(m.posts[p].assertion)
            && Step(m, Receive(p)).1 == Received(f, m.posts[p].assertion)
    decreases |run|
  {
    var t := Step(s, run[0]).0;
    StepKeepsInv(s, run[0]);
    if HasReceived(t, f) {
      StepReceives(s, run[0], f);
      hide Step;
      RunKeepsBound(t, run[1..], f, t.flows[f]);
      a, p, b := [], run[0].p, run[1..];
      assert After(s, a) == s;
    } else {
      hide Step, Inv, HasReceived;
      var c;
      c, p, b := FindReceive(t, run[1..], f);
      a := [run[0]] + c;
      assert a[1..] == c;
    }
  }

  lemma EndIsComplete(s: State, end: Request, f: Id)
    requires Ends(Step(s, end).1, f)
    ensures HasReceived(s, f) && s.now < s.flows[f].expires
    ensures end.Complete? && end.f == f && end.cookie == s.flows[f].cookie && !end.verdict.Fails?
    ensures Step(s, end).1 == if end.verdict.Grants? then Completed(f, s.flows[f].kind) else Denied(f)
  {
  }

  /** Every outcome of every run goes back to one begin, one assertion presented
      for it that answers the begin's request, its reception, and a completion
      with the cookie that begin gave out, within five minutes of it. */
  lemma OutcomeHasItsHistory(run: seq<Request>, end: Request, f: Id)
      returns (a: seq<Request>, start: Request, b: seq<Request>, assertion: Assertion, c: seq<Request>, p: Id,
               d: seq<Request>)
    requires Ends(Step(After(Init(), run), end).1, f)
    ensures run == a + [start] + b + [Present(f, assertion)] + c + [Receive(p)] + d
    ensures start.Start? && end.Complete? && end.f == f && !end.verdict.Fails?
    ensures Step(After(Init(), a), start).1 == Begun(f, end.cookie)
    ensures Step(After(Init(), a + [start] + b), Present(f, assertion)).1 == Presented(p)
    ensures Step(After(Init(), a + [start] + b + [Present(f, assertion)] + c), Receive(p)).1 == Received(f, assertion)
    ensures After(Init(), run).now < After(Init(), a).now + 300
    ensures Step(After(Init(), run), end).1 == if end.verdict.Grants? then Completed(f, start.kind) else Denied(f)
  {
    var s := After(Init(), run);
    EndIsComplete(s, end, f);
    assert Inv(Init()) by { InitHasInv(); }
    hide Step, Inv;
    var front, middle;
    front, p, d := FindReceive(Init(), run, f);
    assertion := After(Init(), front).posts[p].assertion;
    middle, c := FindPresent(Init(), front, p);
    var cookie, request;
    a, start, b, cookie, request := FindStart(Init(), middle, f);
    assert front == a + [start] + b + [Present(f, assertion)] + c;
    var rest := [Present(f, assertion)] + c + [Receive(p)] + d;
    assert run == middle + rest;
    AfterJoined(Init(), middle, rest);
    RunKeepsBegins(After(Init(), middle), rest, f, start.kind, cookie, request, After(Init(), a).now + 300);
  }

  lemma {:induction false} AfterJoined(s: State, a: seq<Request>, b: seq<Request>)
    ensures After(s, a + b) == After(After(s, a), b)
    decreases |a|
  {
    hide Step;
    if a == [] {
      assert a + b == b;
    } else {
      assert (a + b)[1..] == a[1..] + b;
      AfterJoined(Step(s, a[0]).0, a[1..], b);
    }
  }
}
