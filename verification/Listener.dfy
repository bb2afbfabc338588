/** The bounded listener of cmd/olp/listener.go: one admission slot and one
    goroutine per accepted connection, an age drain, hijacked sockets, and a
    shutdown that any number of callers may run while connections end.

    `Admission` is what the mutex guards. `State` adds the program counter of
    every connection's goroutine and of every shutdown worker, and `Apply` is
    one atomic step of one of them, so a run is an arbitrary interleaving. */
module Listener {
  import opened Common

  type Conn = nat

  /** The fields of listenerServer that its mutex guards. */
  datatype Admission = Admission(limit: int, started: bool, closed: bool, connections: set<Conn>)

  predicate MayAdmit(a: Admission) {
    !a.closed && |a.connections| < a.limit
  }

  function Admitted(a: Admission, c: Conn): Admission {
    if MayAdmit(a) then a.(connections := a.connections + {c}) else a
  }

  function Released(a: Admission, c: Conn): Admission {
    a.(connections := a.connections - {c})
  }

  function Started(a: Admission): Admission {
    if a.closed then a else a.(started := true, connections := {})
  }

  /** Where a connection's goroutine stands. */
  datatype Phase =
    | Serving    // in server.Serve
    | Draining   // Serve returned; in server.Shutdown or server.Close
    | Deciding   // about to load the hijacked flag
    | Waiting    // flag seen; blocked on the tracked socket's done channel
    | Closing    // flag not seen; about to close the socket itself
    | Releasing  // about to give its admission back
    | Ending     // admission given back; about to close `finished`
    | Finished

  /** One admitted connection: its goroutine, whether its http.Server has
      accepted the socket, whether a handler has taken it over, whether the
      ConnState hook has stored the hijacked flag for that, and whether the
      tracked socket's Close has begun. */
  datatype Entry = Entry(phase: Phase, accepted: bool, taken: bool, hijacked: bool, closed: bool)

  /** net/http tracks a socket from accepting it until a hijack. */
  predicate Tracked(e: Entry) {
    e.accepted && !e.taken
  }

  /** One worker of a Shutdown call, for one connection of its snapshot. */
  datatype Worker =
    | Asking                  // in entry.server.Shutdown
    | Awaiting                // in entry.await
    | Forced                  // closed the socket; about to report the error
    | Settled(failed: bool)

  datatype State = State(
    admission: Admission,
    entries: map<Conn, Entry>,
    drains: map<nat, map<Conn, Worker>>)

  datatype Event =
    | Start
    | Accept(c: Conn)
    | AcceptOne(c: Conn)       // the connection's http.Server accepts its one socket
    | Hijack(c: Conn)          // net/http untracks the socket for a hijacking handler
    | Hook(c: Conn)            // the ConnState hook runs for that hijack
    | CloseSocket(c: Conn)     // net/http, a handler or a timer closes the socket
    | ServeReturns(c: Conn)
    | Drained(c: Conn)
    | LoadFlag(c: Conn)
    | Woken(c: Conn)
    | CloseOwn(c: Conn)
    | Release(c: Conn)
    | Finish(c: Conn)
    | Shutdown(d: nat)
    | ServerStopped(d: nat, c: Conn)   // entry.server.Shutdown returned nil
    | ServerExpired(d: nat, c: Conn)   // it returned an error: close the socket
    | AwaitFinished(d: nat, c: Conn)
    | AwaitExpired(d: nat, c: Conn)    // ctx ended first: close the socket
    | Report(d: nat, c: Conn)

  function Init(limit: int): State {
    State(Admission(limit, false, false, {}), map[], map[])
  }

  predicate At(s: State, c: Conn, p: Phase) {
    c in s.entries && s.entries[c].phase == p
  }

  predicate WorkerAt(s: State, d: nat, c: Conn, w: Worker) {
    d in s.drains && c in s.drains[d] && s.drains[d][c] == w
  }

  /** When a step can happen. What net/http decides on its own is not
      constrained, except that Shutdown or Close leaves no socket both tracked
      and open. In particular a server that was shut down before it reached
      Serve returns without accepting its socket. Serve of the listener itself
      is called once, as serveListeners does. */
  predicate Enabled(s: State, e: Event) {
    match e
    case Start => !s.admission.started
    case Accept(c) => s.admission.started && c !in s.entries
    case AcceptOne(c) => At(s, c, Serving) && !s.entries[c].accepted
    case Hijack(c) => c in s.entries && Tracked(s.entries[c])
    case Hook(c) => c in s.entries && s.entries[c].taken
    case CloseSocket(c) => c in s.entries
    case ServeReturns(c) => At(s, c, Serving)
    case Drained(c) => At(s, c, Draining) && (s.entries[c].closed || !Tracked(s.entries[c]))
    case LoadFlag(c) => At(s, c, Deciding)
    case Woken(c) => At(s, c, Waiting) && s.entries[c].closed
    case CloseOwn(c) => At(s, c, Closing)
    case Release(c) => At(s, c, Releasing)
    case Finish(c) => At(s, c, Ending)
    case Shutdown(d) => d !in s.drains
    case ServerStopped(d, c) => WorkerAt(s, d, c, Asking)
    case ServerExpired(d, c) => WorkerAt(s, d, c, Asking)
    case AwaitFinished(d, c) => WorkerAt(s, d, c, Awaiting) && At(s, c, Finished)
    case AwaitExpired(d, c) => WorkerAt(s, d, c, Awaiting)
    case Report(d, c) => WorkerAt(s, d, c, Forced)
  }

  function Move(s: State, c: Conn, p: Phase): State
    requires c in s.entries
  {
    s.(entries := s.entries[c := s.entries[c].(phase := p)])
  }

  function Close(s: State, c: Conn): State {
    if c in s.entries then s.(entries := s.entries[c := s.entries[c].(closed := true)]) else s
  }

  function Set(s: State, d: nat, c: Conn, w: Worker): State
    requires d in s.drains
  {
    var workers: map<Conn, Worker> := s.drains[d];
    s.(drains := s.drains[d := workers[c := w]])
  }

  function Apply(s: State, e: Event): State
    requires Enabled(s, e)
  {
    match e
    case Start => s.(admission := Started(s.admission))
    case Accept(c) =>
      var s' := s.(admission := Admitted(s.admission, c));
      if MayAdmit(s.admission) then s'.(entries := s.entries[c := Entry(Serving, false, false, false, false)]) else s'
    case AcceptOne(c) => s.(entries := s.entries[c := s.entries[c].(accepted := true)])
    case Hijack(c) => s.(entries := s.entries[c := s.entries[c].(taken := true)])
    case Hook(c) => s.(entries := s.entries[c := s.entries[c].(hijacked := true)])
    case CloseSocket(c) => Close(s, c)
    case ServeReturns(c) => Move(s, c, Draining)
    case Drained(c) => Move(s, c, Deciding)
    case LoadFlag(c) => Move(s, c, if s.entries[c].hijacked then Waiting else Closing)
    case Woken(c) => Move(s, c, Releasing)
    case CloseOwn(c) => Move(Close(s, c), c, Releasing)
    case Release(c) => Move(s, c, Ending).(admission := Released(s.admission, c))
    case Finish(c) => Move(s, c, Finished)
    case Shutdown(d) =>
      s.(admission := s.admission.(closed := true),
         drains := s.drains[d := map c | c in s.admission.connections :: Asking])
    case ServerStopped(d, c) => Set(s, d, c, Awaiting)
    case ServerExpired(d, c) => Set(Close(s, c), d, c, Forced)
    case AwaitFinished(d, c) => Set(s, d, c, Settled(false))
    case AwaitExpired(d, c) => Set(Close(s, c), d, c, Forced)
    case Report(d, c) => Set(s, d, c, Settled(true))
  }

  /** A run from `s` by `events`, each enabled where it happens. */
  predicate Runs(s: State, events: seq<Event>)
    decreases |events|
  {
    events == [] || (Enabled(s, events[0]) && Runs(Apply(s, events[0]), events[1..]))
  }

  function After(s: State, events: seq<Event>): State
    requires Runs(s, events)
    decreases |events|
  {
    if events == [] then s else After(Apply(s, events[0]), events[1..])
  }

  /** Whether Shutdown call `d` has returned, and whether with a nil error. */
  predicate Returned(s: State, d: nat) {
    d in s.drains && forall c :: c in s.drains[d] ==> s.drains[d][c].Settled?
  }

  predicate ReturnedNil(s: State, d: nat) {
    Returned(s, d) && forall c :: c in s.drains[d] ==> !s.drains[d][c].failed
  }

  /** Admitted sockets whose tracked Close has not begun. */
  function Open(s: State): set<Conn> {
    set c | c in s.entries && !s.entries[c].closed
  }

  predicate Holds(p: Phase) {
    p != Ending && p != Finished
  }

  ghost predicate GoroutinesHoldSlots(s: State) {
    && (forall c :: c in s.admission.connections <==> c in s.entries && Holds(s.entries[c].phase))
    && |s.admission.connections| <= (if s.admission.limit > 0 then s.admission.limit else 0)
    && (!s.admission.started ==> s.entries == map[])
  }

  /** A goroutine gives its slot back only after its socket began to close. */
  predicate EntryAgrees(e: Entry) {
    && (e.phase in {Releasing, Ending, Finished} ==> e.closed)
    && (e.hijacked ==> e.taken) && (e.taken ==> e.accepted)
    && (e.phase == Waiting ==> e.hijacked)
    && (e.phase in {Deciding, Closing} ==> e.closed || !Tracked(e))
  }

  /** What a Shutdown call's workers may rely on. */
  ghost predicate DrainAgrees(s: State, d: nat)
    requires d in s.drains
  {
    && s.admission.closed
    && s.admission.connections <= s.drains[d].Keys
    && forall c :: c in s.drains[d] ==> c in s.entries && WorkerAgrees(s.entries[c], s.drains[d][c])
  }

  predicate WorkerAgrees(e: Entry, w: Worker) {
    && (w == Settled(false) ==> e.phase == Finished)
    && (w == Forced || w == Settled(true) ==> e.closed)
  }

  ghost predicate Inv(s: State) {
    && GoroutinesHoldSlots(s)
    && (forall c :: c in s.entries ==> EntryAgrees(s.entries[c]))
    && (forall d :: d in s.drains ==> DrainAgrees(s, d))
  }

  lemma InitInv(limit: int)
    ensures Inv(Init(limit))
  {
  }

  lemma AcceptKeepsSlots(s: State, c: Conn)
    requires GoroutinesHoldSlots(s) && Enabled(s, Accept(c))
    ensures GoroutinesHoldSlots(Apply(s, Accept(c)))
  {
  }

  lemma ReleaseKeepsSlots(s: State, c: Conn)
    requires GoroutinesHoldSlots(s) && Enabled(s, Release(c))
    ensures GoroutinesHoldSlots(Apply(s, Release(c)))
  {
    SubsetSize(Apply(s, Release(c)).admission.connections, s.admission.connections);
  }

  /** No other step takes or gives back a slot, or changes who holds one. */
  lemma QuietStepKeepsPhase(s: State, e: Event, c: Conn)
    requires Enabled(s, e) && !e.Accept? && !e.Release? && c in s.entries
    ensures c in Apply(s, e).entries && Holds(Apply(s, e).entries[c].phase) == Holds(s.entries[c].phase)
  {
  }

  lemma QuietStep(s: State, e: Event)
    requires Enabled(s, e) && !e.Start? && !e.Accept? && !e.Release?
    ensures var t := Apply(s, e);
            && t.admission == s.admission.(closed := t.admission.closed) && t.entries.Keys == s.entries.Keys
            && forall c :: c in s.entries ==> Holds(t.entries[c].phase) == Holds(s.entries[c].phase)
  {
    hide Holds;
    forall c | c in s.entries ensures Holds(Apply(s, e).entries[c].phase) == Holds(s.entries[c].phase) {
      QuietStepKeepsPhase(s, e, c);
    }
  }

  lemma QuietStepKeepsSlots(s: State, t: State)
    requires GoroutinesHoldSlots(s)
    requires t.admission == s.admission.(closed := t.admission.closed) && t.entries.Keys == s.entries.Keys
    requires forall c :: c in s.entries ==> Holds(t.entries[c].phase) == Holds(s.entries[c].phase)
    ensures GoroutinesHoldSlots(t)
  {
  }

  lemma StepKeepsSlots(s: State, e: Event)
    requires GoroutinesHoldSlots(s) && Enabled(s, e)
    ensures GoroutinesHoldSlots(Apply(s, e))
  {
    if e.Accept? {
      AcceptKeepsSlots(s, e.c);
    } else if e.Release? {
      ReleaseKeepsSlots(s, e.c);
    } else if !e.Start? {
      hide Apply, GoroutinesHoldSlots, Holds;
      QuietStep(s, e);
      QuietStepKeepsSlots(s, Apply(s, e));
    }
  }

  lemma StepKeepsEntry(s: State, e: Event, c: Conn)
    requires Enabled(s, e) && c in Apply(s, e).entries && (c in s.entries ==> EntryAgrees(s.entries[c]))
    ensures EntryAgrees(Apply(s, e).entries[c])
  {
  }

  /** What no step undoes: a closed listener stays closed and admits nothing,
      an admitted socket stays admitted, a begun Close stays begun, and a
      finished goroutine stays finished. */
  ghost predicate Grows(s: State, t: State) {
    && (s.admission.closed ==> t.admission.closed && t.admission.connections <= s.admission.connections
                               && t.entries.Keys == s.entries.Keys)
    && (forall c :: c in s.entries ==>
          && c in t.entries
          && (s.entries[c].closed ==> t.entries[c].closed)
          && (s.entries[c].phase == Finished ==> t.entries[c].phase == Finished))
  }

  lemma StepGrows(s: State, e: Event)
    requires Enabled(s, e)
    ensures Grows(s, Apply(s, e))
  {
  }

  lemma DrainOutlivesProgress(s: State, t: State, d: nat)
    requires d in s.drains && DrainAgrees(s, d) && Grows(s, t)
    requires d in t.drains && t.drains[d] == s.drains[d]
    ensures DrainAgrees(t, d)
  {
    assert t.admission.connections <= s.admission.connections <= s.drains[d].Keys;
  }

  lemma DrainOutlivesWorker(s: State, t: State, d: nat, c: Conn)
    requires d in s.drains && c in s.drains[d] && DrainAgrees(s, d) && Grows(s, t)
    requires d in t.drains && c in t.drains[d] && t.drains[d] == s.drains[d][c := t.drains[d][c]]
    requires c in t.entries && WorkerAgrees(t.entries[c], t.drains[d][c])
    ensures DrainAgrees(t, d)
  {
    assert t.admission.connections <= s.admission.connections <= s.drains[d].Keys;
  }

  predicate WorkerEvent(e: Event) {
    e.ServerStopped? || e.ServerExpired? || e.AwaitFinished? || e.AwaitExpired? || e.Report?
  }

  lemma WorkerStepKeepsDrain(s: State, e: Event, d: nat)
    requires Inv(s) && Enabled(s, e) && WorkerEvent(e) && d in s.drains
    ensures d in Apply(s, e).drains && DrainAgrees(Apply(s, e), d)
  {
    hide GoroutinesHoldSlots, EntryAgrees, Grows;
    assert DrainAgrees(s, d);
    StepGrows(s, e);
    if d == e.d {
      DrainOutlivesWorker(s, Apply(s, e), d, e.c);
    } else {
      DrainOutlivesProgress(s, Apply(s, e), d);
    }
  }

  lemma StepKeepsDrain(s: State, e: Event, d: nat)
    requires Inv(s) && Enabled(s, e) && d in Apply(s, e).drains
    ensures DrainAgrees(Apply(s, e), d)
  {
    if d !in s.drains {
      assert e == Shutdown(d);
    } else if WorkerEvent(e) {
      WorkerStepKeepsDrain(s, e, d);
    } else {
      assert DrainAgrees(s, d);
      StepGrows(s, e);
      DrainOutlivesProgress(s, Apply(s, e), d);
    }
  }

  lemma StepKeepsInv(s: State, e: Event)
    requires Inv(s) && Enabled(s, e)
    ensures Inv(Apply(s, e))
  {
    hide Apply, GoroutinesHoldSlots, EntryAgrees, DrainAgrees;
    StepKeepsSlots(s, e);
    forall c | c in Apply(s, e).entries ensures EntryAgrees(Apply(s, e).entries[c]) {
      StepKeepsEntry(s, e, c);
    }
    forall d | d in Apply(s, e).drains ensures DrainAgrees(Apply(s, e), d) {
      StepKeepsDrain(s, e, d);
    }
  }

  lemma {:induction false} RunKeepsInv(s: State, events: seq<Event>)
    requires Inv(s) && Runs(s, events)
    ensures Inv(After(s, events)) && Grows(s, After(s, events))
    decreases |events|
  {
    if events != [] {
      StepKeepsInv(s, events[0]);
      StepGrows(s, events[0]);
      RunKeepsInv(Apply(s, events[0]), events[1..]);
    }
  }

  /** In every reachable state, in or out of the hijack race, an admitted socket
      that has not begun to close holds a slot, and slots never exceed the limit. */
  lemma OpenSocketsAreBounded(limit: int, events: seq<Event>)
    requires Runs(Init(limit), events)
    ensures var s := After(Init(limit), events);
            && Open(s) <= s.admission.connections
            && |Open(s)| <= |s.admission.connections| <= (if limit > 0 then limit else 0)
  {
    InitInv(limit);
    RunKeepsInv(Init(limit), events);
    LimitIsFixed(Init(limit), events);
    var s := After(Init(limit), events);
    SubsetSize(Open(s), s.admission.connections);
  }

  lemma {:induction false} LimitIsFixed(s: State, events: seq<Event>)
    requires Runs(s, events)
    ensures After(s, events).admission.limit == s.admission.limit
    decreases |events|
  {
    if events != [] {
      LimitIsFixed(Apply(s, events[0]), events[1..]);
    }
  }

  /** Shutdown returning nil means no admitted connection remains, and none is
      ever added again, whatever runs afterwards. */
  lemma ShutdownNilMeansDrained(limit: int, events: seq<Event>, more: seq<Event>, d: nat)
    requires Runs(Init(limit), events) && ReturnedNil(After(Init(limit), events), d)
    requires Runs(After(Init(limit), events), more)
    ensures After(Init(limit), events).admission.connections == {}
    ensures After(After(Init(limit), events), more).admission.connections == {}
    ensures After(After(Init(limit), events), more).entries.Keys == After(Init(limit), events).entries.Keys
  {
    InitInv(limit);
    RunKeepsInv(Init(limit), events);
    var s := After(Init(limit), events);
    RunKeepsInv(s, more);
    assert forall c :: c in s.drains[d] ==> s.drains[d][c] == Settled(false);
  }

  /** Shutdown returning at all, with or without an error, means every socket
      ever admitted has begun to close, and stays so. */
  lemma ShutdownReturnsOnlyWithSocketsClosed(limit: int, events: seq<Event>, more: seq<Event>, d: nat)
    requires Runs(Init(limit), events) && Returned(After(Init(limit), events), d)
    requires Runs(After(Init(limit), events), more)
    ensures Open(After(Init(limit), events)) == {}
    ensures Open(After(After(Init(limit), events), more)) == {}
  {
    InitInv(limit);
    RunKeepsInv(Init(limit), events);
    var s := After(Init(limit), events);
    RunKeepsInv(s, more);
    OpenSocketsAreBounded(limit, events);
    forall c | c in s.drains[d] ensures s.entries[c].closed {
      assert s.drains[d][c] == Settled(false) || s.drains[d][c] == Settled(true);
    }
  }

  // When the listener's own goroutine closes a socket that is still open.

  /** From `s` some run lets the goroutine of `c` close its socket while open. */
  ghost predicate MayCloseOpen(s: State, c: Conn) {
    exists run :: Runs(s, run) && Enabled(After(s, run), CloseOwn(c)) && c in Open(After(s, run))
  }

  /** Past its decision not to close, a goroutine never comes back to close. */
  predicate WillNotClose(s: State, c: Conn) {
    c in s.entries && s.entries[c].phase in {Waiting, Releasing, Ending, Finished}
  }

  lemma StepKeepsDecision(s: State, e: Event, c: Conn)
    requires Enabled(s, e) && WillNotClose(s, c)
    ensures WillNotClose(Apply(s, e), c)
  {
  }

  lemma {:induction false} RunKeepsDecision(s: State, events: seq<Event>, c: Conn)
    requires Runs(s, events) && WillNotClose(s, c)
    ensures WillNotClose(After(s, events), c)
    decreases |events|
  {
    hide Enabled, Apply, WillNotClose;
    if events != [] {
      StepKeepsDecision(s, events[0], c);
      RunKeepsDecision(Apply(s, events[0]), events[1..], c);
    }
  }

  /** The two reasons to close a socket that is open: its server never accepted
      it, or a handler took it over and the flag for that is not stored yet. */
  predicate Unserved(e: Entry) {
    !e.accepted
  }

  predicate InTheRace(e: Entry) {
    e.taken && !e.hijacked
  }

  lemma LoadingDecides(s: State, c: Conn)
    requires Inv(s) && At(s, c, Deciding) && c in Open(s)
    ensures var t := Apply(s, LoadFlag(c)); var e := s.entries[c];
            if Unserved(e) || InTheRace(e) then Enabled(t, CloseOwn(c)) && c in Open(t) else WillNotClose(t, c)
  {
    hide GoroutinesHoldSlots, DrainAgrees;
    assert EntryAgrees(s.entries[c]);
  }

  /** At the moment the goroutine loads the flag of a socket that is open, it can
      go on to close that socket while open if and only if the socket was never
      accepted, or was taken over with the flag not stored yet. */
  lemma OwnCloseHitsOpenSocketExactlyWhen(limit: int, events: seq<Event>, c: Conn)
    requires Runs(Init(limit), events) && At(After(Init(limit), events), c, Deciding)
    requires c in Open(After(Init(limit), events))
    ensures var s := After(Init(limit), events);
            MayCloseOpen(Apply(s, LoadFlag(c)), c) <==> Unserved(s.entries[c]) || InTheRace(s.entries[c])
  {
    hide Inv, Apply, Open, WillNotClose, Unserved, InTheRace;
    var s := After(Init(limit), events);
    assert Inv(Init(limit)) by { InitInv(limit); }
    RunKeepsInv(Init(limit), events);
    LoadingDecides(s, c);
    var t := Apply(s, LoadFlag(c));
    if Unserved(s.entries[c]) || InTheRace(s.entries[c]) {
      assert Runs(t, []) && After(t, []) == t;
    } else {
      forall run | Runs(t, run) ensures !Enabled(After(t, run), CloseOwn(c)) {
        RunKeepsDecision(t, run, c);
        DecidedIsNotClosing(After(t, run), c);
      }
    }
  }

  lemma DecidedIsNotClosing(s: State, c: Conn)
    requires WillNotClose(s, c)
    ensures !Enabled(s, CloseOwn(c))
  {
  }

  lemma OnlyLoadingLeadsToClosing(s: State, e: Event, c: Conn)
    requires Enabled(s, e) && At(Apply(s, e), c, Closing)
    ensures At(s, c, Closing) || (e == LoadFlag(c) && At(s, c, Deciding))
  {
  }

  /** Where in a run a goroutine that is about to close loaded the flag. */
  lemma {:induction false} FindLoad(s: State, events: seq<Event>, c: Conn)
      returns (before: seq<Event>, rest: seq<Event>)
    requires Runs(s, events) && !At(s, c, Closing) && At(After(s, events), c, Closing)
    ensures events == before + [LoadFlag(c)] + rest
    ensures Runs(s, before) && At(After(s, before), c, Deciding)
    ensures Runs(Apply(After(s, before), LoadFlag(c)), rest)
    ensures After(Apply(After(s, before), LoadFlag(c)), rest) == After(s, events)
    decreases |events|
  {
    hide Apply, At;
    var t := Apply(s, events[0]);
    if At(t, c, Closing) {
      OnlyLoadingLeadsToClosing(s, events[0], c);
      before, rest := [], events[1..];
      assert Runs(s, before) && After(s, before) == s;
    } else {
      before, rest := FindLoad(t, events[1..], c);
      var longer := [events[0]] + before;
      assert longer[1..] == before;
      before := longer;
    }
  }

  /** Whenever in any run the goroutine is about to close a socket that is open,
      it loaded the flag when the socket was unaccepted or in the race. */
  lemma EveryOwnCloseHasItsReason(limit: int, events: seq<Event>, c: Conn)
      returns (before: seq<Event>, rest: seq<Event>)
    requires Runs(Init(limit), events) && Enabled(After(Init(limit), events), CloseOwn(c))
    requires c in Open(After(Init(limit), events))
    ensures events == before + [LoadFlag(c)] + rest && Runs(Init(limit), before)
            && c in After(Init(limit), before).entries
    ensures var e := After(Init(limit), before).entries[c]; Unserved(e) || InTheRace(e)
  {
    before, rest := FindLoad(Init(limit), events, c);
    hide Apply, Unserved, InTheRace, WillNotClose;
    var s := After(Init(limit), before);
    var t := Apply(s, LoadFlag(c));
    assert Inv(Init(limit)) by { InitInv(limit); }
    RunKeepsInv(Init(limit), before);
    StepGrows(s, LoadFlag(c));
    StepKeepsInv(s, LoadFlag(c));
    RunKeepsInv(t, rest);
    hide Inv;
    LoadingDecides(s, c);
    if !(Unserved(s.entries[c]) || InTheRace(s.entries[c])) {
      RunKeepsDecision(t, rest, c);
      DecidedIsNotClosing(After(t, rest), c);
    }
  }

  /** One connection; with `shut` a Shutdown call has stopped its server and
      waits for its goroutine. */
  function Alone(c: Conn, accepted: bool, taken: bool, shut: bool, phase: Phase): State {
    State(Admission(1, true, shut, {c}), map[c := Entry(phase, accepted, taken, false, false)],
          if shut then map[0 := map[c := Awaiting]] else map[])
  }

  /** The race is reachable: a shutdown between net/http's untracking and the hook
      makes the goroutine close the socket the handler just took over. */
  lemma HijackRaceIsReachable(c: Conn) returns (race: seq<Event>)
    ensures race == [Start, Accept(c), AcceptOne(c), Hijack(c), Shutdown(0), ServerStopped(0, c),
                     ServeReturns(c), Drained(c), LoadFlag(c)]
    ensures Runs(Init(1), race) && After(Init(1), race) == Alone(c, true, true, true, Closing)
    ensures Enabled(After(Init(1), race), CloseOwn(c)) && c in Open(After(Init(1), race))
  {
    assert Runs(Init(1), []) && After(Init(1), []) == Init(1);
    AdmissionSteps(c);
    ClosesAtLast(c, true);
    hide Runs, After, Apply, Enabled, Open;
    race := Take([], Init(1), Start, Apply(Init(1), Start));
    race := Take(race, Apply(Init(1), Start), Accept(c), Alone(c, false, false, false, Serving));
    race := Take(race, Alone(c, false, false, false, Serving), AcceptOne(c), Alone(c, true, false, false, Serving));
    race := Take(race, Alone(c, true, false, false, Serving), Hijack(c), Alone(c, true, true, false, Serving));
    race := ReachClosing(race, c, true);
  }

  /** So is the other reason: a shutdown before the goroutine reached Serve leaves
      the socket unaccepted, and the goroutine closes it. */
  lemma UnservedSocketIsReachable(c: Conn) returns (run: seq<Event>)
    ensures run == [Start, Accept(c), Shutdown(0), ServerStopped(0, c), ServeReturns(c), Drained(c), LoadFlag(c)]
    ensures Runs(Init(1), run) && After(Init(1), run) == Alone(c, false, false, true, Closing)
    ensures Enabled(After(Init(1), run), CloseOwn(c)) && c in Open(After(Init(1), run))
  {
    assert Runs(Init(1), []) && After(Init(1), []) == Init(1);
    AdmissionSteps(c);
    ClosesAtLast(c, false);
    hide Runs, After, Apply, Enabled, Open;
    run := Take([], Init(1), Start, Apply(Init(1), Start));
    run := Take(run, Apply(Init(1), Start), Accept(c), Alone(c, false, false, false, Serving));
    run := ReachClosing(run, c, false);
  }

  lemma AdmissionSteps(c: Conn)
    ensures Enabled(Init(1), Start) && Enabled(Apply(Init(1), Start), Accept(c))
    ensures Apply(Apply(Init(1), Start), Accept(c)) == Alone(c, false, false, false, Serving)
    ensures var s := Alone(c, false, false, false, Serving);
            Enabled(s, AcceptOne(c)) && Apply(s, AcceptOne(c)) == Alone(c, true, false, false, Serving)
    ensures var s := Alone(c, true, false, false, Serving);
            Enabled(s, Hijack(c)) && Apply(s, Hijack(c)) == Alone(c, true, true, false, Serving)
  {
  }

  /** One connection whose server a Shutdown call is asking to stop. */
  function Asked(c: Conn, served: bool): State {
    Alone(c, served, served, true, Serving).(drains := map[0 := map[c := Asking]])
  }

  lemma ShutdownSteps(c: Conn, served: bool)
    ensures var s := Alone(c, served, served, false, Serving);
            Enabled(s, Shutdown(0)) && Apply(s, Shutdown(0)) == Asked(c, served)
    ensures Enabled(Asked(c, served), ServerStopped(0, c))
    ensures Apply(Asked(c, served), ServerStopped(0, c)) == Alone(c, served, served, true, Serving)
  {
    var s := Alone(c, served, served, false, Serving);
    assert Apply(s, Shutdown(0)).drains[0] == map[c := Asking];
    assert Apply(s, Shutdown(0)).drains == map[0 := map[c := Asking]];
    var workers: map<Conn, Worker> := map[c := Asking];
    assert workers[c := Awaiting] == map[c := Awaiting];
    assert Apply(Asked(c, served), ServerStopped(0, c)).drains == map[0 := map[c := Awaiting]];
  }

  lemma GoroutineSteps(c: Conn, served: bool)
    ensures var s := Alone(c, served, served, true, Serving);
            Enabled(s, ServeReturns(c)) && Apply(s, ServeReturns(c)) == Alone(c, served, served, true, Draining)
    ensures var s := Alone(c, served, served, true, Draining);
            Enabled(s, Drained(c)) && Apply(s, Drained(c)) == Alone(c, served, served, true, Deciding)
    ensures var s := Alone(c, served, served, true, Deciding);
            Enabled(s, LoadFlag(c)) && Apply(s, LoadFlag(c)) == Alone(c, served, served, true, Closing)
  {
  }

  lemma ClosesAtLast(c: Conn, served: bool)
    ensures var s := Alone(c, served, served, true, Closing); Enabled(s, CloseOwn(c)) && c in Open(s)
  {
  }

  lemma ReachClosing(run: seq<Event>, c: Conn, served: bool) returns (longer: seq<Event>)
    requires Runs(Init(1), run) && After(Init(1), run) == Alone(c, served, served, false, Serving)
    ensures longer == run + [Shutdown(0), ServerStopped(0, c), ServeReturns(c), Drained(c), LoadFlag(c)]
    ensures Runs(Init(1), longer) && After(Init(1), longer) == Alone(c, served, served, true, Closing)
  {
    ShutdownSteps(c, served);
    GoroutineSteps(c, served);
    hide Runs, After, Apply, Enabled, Open, Alone, Asked;
    longer := Take(run, Alone(c, served, served, false, Serving), Shutdown(0), Asked(c, served));
    longer := Take(longer, Asked(c, served), ServerStopped(0, c), Alone(c, served, served, true, Serving));
    longer := Take(longer, Alone(c, served, served, true, Serving), ServeReturns(c),
      Alone(c, served, served, true, Draining));
    longer := Take(longer, Alone(c, served, served, true, Draining), Drained(c),
      Alone(c, served, served, true, Deciding));
    longer := Take(longer, Alone(c, served, served, true, Deciding), LoadFlag(c),
      Alone(c, served, served, true, Closing));
  }

  lemma Take(run: seq<Event>, s: State, e: Event, t: State) returns (longer: seq<Event>)
    requires Runs(Init(1), run) && After(Init(1), run) == s && Enabled(s, e) && Apply(s, e) == t
    ensures longer == run + [e] && Runs(Init(1), longer) && After(Init(1), longer) == t
  {
    Extend(Init(1), run, e);
    longer := run + [e];
  }

  lemma {:induction false} Extend(s: State, events: seq<Event>, e: Event)
    requires Runs(s, events) && Enabled(After(s, events), e)
    ensures Runs(s, events + [e]) && After(s, events + [e]) == Apply(After(s, events), e)
    decreases |events|
  {
    if events == [] {
      assert Runs(Apply(s, e), []);
    } else {
      Extend(Apply(s, events[0]), events[1..], e);
      assert (events + [e])[1..] == events[1..] + [e];
    }
  }

  /** The mutex-guarded half of listenerServer, updated in place. Each method is
      one critical section, and its effect is the one the interleavings use. */
  class Server {
    const limit: int
    var started: bool
    var closed: bool
    var connections: set<Conn>

    function View(): Admission
      reads this
    {
      Admission(limit, started, closed, connections)
    }

    constructor (limit: int)
      ensures View() == Init(limit).admission
    {
      this.limit := limit;
      started, closed, connections := false, false, {};
    }

    /** The head of Serve. */
    method Serve() returns (refused: bool)
      modifies this
      ensures refused == old(closed)
      ensures View() == Started(old(View()))
    {
      refused := closed;
      if refused {
        return;
      }
      started := true;
      connections := {};
    }

    /** The locked part of one turn of the accept loop. */
    method Admit(entry: Conn) returns (admitted: bool)
      modifies this
      ensures admitted == MayAdmit(old(View()))
      ensures View() == Admitted(old(View()), entry)
    {
      if closed || |connections| >= limit {
        return false;
      }
      connections := connections + {entry};
      return true;
    }

    method Release(entry: Conn)
      modifies this
      ensures View() == Released(old(View()), entry)
    {
      connections := connections - {entry};
    }

    /** The locked part of Shutdown: no admission can follow, and the snapshot
        lists every admitted connection once. */
    method BeginShutdown() returns (snapshot: seq<Conn>)
      modifies this
      ensures View() == old(View()).(closed := true)
      ensures forall c :: c in snapshot <==> c in connections
      ensures |snapshot| == |connections|
    {
      closed := true;
      snapshot := [];
      var rest := connections;
      while rest != {}
        invariant rest <= connections
        invariant forall c :: c in snapshot <==> c in connections - rest
        invariant |snapshot| + |rest| == |connections|
        decreases rest
      {
        var entry :| entry in rest;
        snapshot := snapshot + [entry];
        rest := rest - {entry};
      }
    }
  }
}
