/** How a mutation is authorized: admitRoute, Reauthorize and BeginMutation of
    internal/access/route.go, with Begin of http.go taking the installation lock.
    Requests run concurrently; only what the lock orders is ordered. */
module Route {
  import opened Common
  import opened Kernel
  import opened Policy

  datatype Credential = Cookie(session: Id) | Bearer(token: Id)

  /** Authenticate. */
  function Resolve(t: Tables, c: Credential): Option<Principal> {
    match c
    case Cookie(s) => if s in t.sessions && InForce(t, t.sessions[s]) then Some(MemberOf(t, t.sessions[s])) else None
    case Bearer(k) => MachineOf(t, k)
  }

  predicate Allowed(t: Tables, c: Credential, req: Requirement) {
    Resolve(t, c).Some? && Admitted(req, Resolve(t, c).value)
  }

  datatype Phase =
    | Entered(p: Principal)   // past the route's check, outside any transaction
    | Locked                  // holds the installation lock
    | Cleared(p: Principal)   // resolved and checked again inside the transaction
    | Ended(committed: bool)

  datatype Worker = Worker(credential: Credential, requirement: Requirement, phase: Phase)

  datatype State = State(tables: Tables, lock: Option<Id>, workers: map<Id, Worker>)

  /** `Other` is any transaction that takes the lock without coming through a
      secured route, such as a sign-in. */
  datatype Event =
    | Arrive(w: Id, credential: Credential, requirement: Requirement)
    | Begin(w: Id)
    | Reauthorize(w: Id)
    | Commit(w: Id, tables: Tables)
    | Rollback(w: Id)
    | Other(tables: Tables)

  predicate Enabled(s: State, e: Event) {
    match e
    case Arrive(w, c, req) => w !in s.workers && Allowed(s.tables, c, req)
    case Begin(w) => w in s.workers && s.workers[w].phase.Entered? && s.lock.None?
    case Reauthorize(w) => w in s.workers && s.workers[w].phase.Locked?
    case Commit(w, _) => w in s.workers && s.workers[w].phase.Cleared?
    case Rollback(w) => w in s.workers && (s.workers[w].phase.Locked? || s.workers[w].phase.Cleared?)
    case Other(_) => s.lock.None?
  }

  function Move(s: State, w: Id, p: Phase): State
    requires w in s.workers
  {
    s.(workers := s.workers[w := s.workers[w].(phase := p)])
  }

  function Apply(s: State, e: Event): State
    requires Enabled(s, e)
  {
    match e
    case Arrive(w, c, req) => s.(workers := s.workers[w := Worker(c, req, Entered(Resolve(s.tables, c).value))])
    case Begin(w) => Move(s, w, Locked).(lock := Some(w))
    case Reauthorize(w) =>
      var k := s.workers[w];
      if Allowed(s.tables, k.credential, k.requirement) then Move(s, w, Cleared(Resolve(s.tables, k.credential).value))
      else Move(s, w, Ended(false)).(lock := None)
    case Commit(w, tables) => Move(s, w, Ended(true)).(lock := None, tables := tables)
    case Rollback(w) => Move(s, w, Ended(false)).(lock := None)
    case Other(tables) => s.(tables := tables)
  }

  predicate Runs(s: State, events: seq<Event>)
    decreases |events|
  {
    events == [] || (Enabled(s, events[0]) && Runs(Apply(s, events[0]), events[1..]))
  }

  function After(s: State, events: seq<Event>): State
    requires Runs(s, events)
    decreases |events|
  {
    if events == [] then s else After(Apply(s, events[0]), events[1..])
  }

  /** The worker inside a transaction is the one that holds the lock, and a
      cleared one is allowed by the tables as they are. */
  predicate Inv(s: State) {
    forall w :: w in s.workers && (s.workers[w].phase.Locked? || s.workers[w].phase.Cleared?) ==>
      && s.lock == Some(w)
      && (s.workers[w].phase.Cleared? ==>
            Allowed(s.tables, s.workers[w].credential, s.workers[w].requirement)
            && Resolve(s.tables, s.workers[w].credential) == Some(s.workers[w].phase.p))
  }

  lemma StepKeepsInv(s: State, e: Event)
    requires Inv(s) && Enabled(s, e)
    ensures Inv(Apply(s, e))
  {
    hide Resolve, Policy.Admitted;
  }

  lemma {:induction false} RunKeepsInv(s: State, events: seq<Event>)
    requires Inv(s) && Runs(s, events)
    ensures Inv(After(s, events))
    decreases |events|
  {
    hide Inv, Enabled, Apply;
    if events != [] {
      StepKeepsInv(s, events[0]);
      RunKeepsInv(Apply(s, events[0]), events[1..]);
    }
  }

  /** However requests interleave, a mutation that commits is authorized by the
      tables it commits against, and acts as the principal they give it. */
  lemma CommitsOnlyWhatIsAuthorizedNow(tables: Tables, events: seq<Event>, w: Id, tables': Tables)
    requires Runs(State(tables, None, map[]), events)
             && Enabled(After(State(tables, None, map[]), events), Commit(w, tables'))
    ensures var s := After(State(tables, None, map[]), events);
            && Allowed(s.tables, s.workers[w].credential, s.workers[w].requirement)
            && Resolve(s.tables, s.workers[w].credential) == Some(s.workers[w].phase.p)
  {
    hide Resolve, Policy.Admitted, Apply;
    RunKeepsInv(State(tables, None, map[]), events);
  }

  lemma StepKeepsEnded(s: State, e: Event, w: Id)
    requires Enabled(s, e) && w in s.workers && s.workers[w].phase.Ended?
    ensures w in Apply(s, e).workers && Apply(s, e).workers[w].phase == s.workers[w].phase && !(e.Commit? && e.w == w)
  {
    hide Allowed;
  }

  lemma {:induction false} EndedStaysEnded(s: State, events: seq<Event>, w: Id)
    requires Runs(s, events) && w in s.workers && s.workers[w].phase.Ended?
    ensures w in After(s, events).workers && After(s, events).workers[w].phase == s.workers[w].phase
    ensures forall e :: e in events ==> !(e.Commit? && e.w == w)
    decreases |events|
  {
    hide Enabled, Apply;
    if events != [] {
      StepKeepsEnded(s, events[0], w);
      EndedStaysEnded(Apply(s, events[0]), events[1..], w);
      assert events == [events[0]] + events[1..];
    }
  }

  /** A request commits at all only if its authority held when it was resolved
      again under the lock: otherwise it has ended, and in no continuation of the
      run does it commit. */
  lemma LostAuthorityNeverCommits(s: State, w: Id, later: seq<Event>)
    requires Enabled(s, Reauthorize(w)) && Runs(Apply(s, Reauthorize(w)), later)
    requires !Allowed(s.tables, s.workers[w].credential, s.workers[w].requirement)
    ensures var t := After(Apply(s, Reauthorize(w)), later); w in t.workers && t.workers[w].phase == Ended(false)
    ensures forall e :: e in later ==> !(e.Commit? && e.w == w)
  {
    hide Allowed;
    EndedStaysEnded(Apply(s, Reauthorize(w)), later, w);
  }

  /** It does happen: authority lost after admission stops the mutation, although
      the route had let the request in. */
  lemma LostAuthorityIsRefused(s: State, w: Id, tables: Tables)
    requires Inv(s) && s.lock.None? && w in s.workers && s.workers[w].phase.Entered?
    requires !Allowed(tables, s.workers[w].credential, s.workers[w].requirement)
    ensures var run := [Other(tables), Begin(w), Reauthorize(w)];
            Runs(s, run) && w in After(s, run).workers && After(s, run).workers[w].phase == Ended(false)
              && After(s, run).tables == tables
  {
    hide Allowed;
    var run := [Other(tables), Begin(w), Reauthorize(w)];
    var s1 := Apply(s, run[0]);
    var s2 := Apply(s1, run[1]);
    var s3 := Apply(s2, run[2]);
    assert run[1..][1..] == [Reauthorize(w)] && run[1..][1..][1..] == [];
    assert Runs(s3, []) && After(s3, []) == s3;
    assert Runs(s2, [Reauthorize(w)]) && After(s2, [Reauthorize(w)]) == s3;
    assert Runs(s1, run[1..]) && After(s1, run[1..]) == s3;
  }

  /** The lock and the tables behind it, as one request uses them. */
  class Server {
    var tables: Tables
    var lock: Option<Id>

    constructor (initial: Tables)
      ensures tables == initial && lock == None
    {
      tables, lock := initial, None;
    }

    method Reauthorized(credential: Credential, requirement: Requirement) returns (p: Option<Principal>)
      ensures p == if Allowed(tables, credential, requirement) then Resolve(tables, credential) else None
    {
      p := Resolve(tables, credential);
      if p.None? { return None; }
      var ok := Admits(requirement, p.value);
      if !ok { return None; }
    }

    /** BeginMutation: a caller holds the lock afterwards exactly when the tables
        still allow it, and gets the principal they give it. */
    method BeginMutation(w: Id, credential: Credential, requirement: Requirement) returns (p: Option<Principal>)
      requires lock.None?
      modifies this`lock
      ensures p == if Allowed(tables, credential, requirement) then Resolve(tables, credential) else None
      ensures lock == if p.Some? then Some(w) else None
    {
      lock := Some(w);
      p := Reauthorized(credential, requirement);
      if p.None? {
        lock := None;
      }
    }
  }
}
