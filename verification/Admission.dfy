/** The fixed-window admission counters of internal/access/identity.go, charged
    in a transaction of their own before a request is let in. The clock of those
    transactions does not run backwards. */
module Admission {
  import opened Common

  const WINDOW: Time := 60
  const STALE: Time := 600

  /** olp.auth_admission, keyed by action and bucket. */
  datatype Row = Row(start: Time, attempts: nat)

  datatype Bucket = Bucket(action: string, name: string, limit: nat)

  type Rows = map<(string, string), Row>

  function Slot(b: Bucket): (string, string) {
    (b.action, b.name)
  }

  /** The buckets one request is charged to, in order. */
  function Buckets(action: string, source: string, target: string): seq<Bucket> {
    [Bucket(action, "global", 10000), Bucket(action, "source:" + source, if action == "invitation" then 30 else 60)] +
    if target == "" then []
    else [Bucket(action, "target:" + source + ":" + target, 5), Bucket(action, "account:" + target, 30)]
  }

  /** The upsert: a window that ended starts anew, and the count stops one past
      the limit. */
  function Charged(rows: Rows, now: Time, b: Bucket): Row {
    if Slot(b) !in rows || rows[Slot(b)].start + WINDOW <= now then Row(now, 1)
    else
      var row := rows[Slot(b)];
      Row(row.start, if row.attempts + 1 < b.limit + 1 then row.attempts + 1 else b.limit + 1)
  }

  function Charge(rows: Rows, now: Time, b: Bucket): Rows {
    rows[Slot(b) := Charged(rows, now, b)]
  }

  predicate Passes(rows: Rows, now: Time, b: Bucket) {
    Charged(rows, now, b).attempts <= b.limit
  }

  /** Charge the buckets in order, up to the first that refuses. */
  function Admitting(rows: Rows, now: Time, buckets: seq<Bucket>): (Rows, bool)
    decreases |buckets|
  {
    if buckets == [] then (rows, true)
    else if !Passes(rows, now, buckets[0]) then (Charge(rows, now, buckets[0]), false)
    else Admitting(Charge(rows, now, buckets[0]), now, buckets[1..])
  }

  function Sweep(rows: Rows, now: Time, gone: set<(string, string)>): Rows {
    map k | k in rows && !(k in gone && rows[k].start + STALE < now) :: rows[k]
  }

  datatype State = State(now: Time, rows: Rows)

  /** `Clean` is the sweep of some old rows that follows each attempt. */
  datatype Event =
    | Attempt(action: string, source: string, target: string)
    | Clean(gone: set<(string, string)>)
    | Wait(until: Time)

  function BucketsOf(e: Event): seq<Bucket>
    requires e.Attempt?
  {
    Buckets(e.action, e.source, e.target)
  }

  function Step(s: State, e: Event): State {
    match e
    case Attempt(action, source, target) => s.(rows := Admitting(s.rows, s.now, Buckets(action, source, target)).0)
    case Clean(gone) => s.(rows := Sweep(s.rows, s.now, gone))
    case Wait(until) => s.(now := if until > s.now then until else s.now)
  }

  function After(s: State, run: seq<Event>): State
    decreases |run|
  {
    if run == [] then s else After(Step(s, run[0]), run[1..])
  }

  /** Rows began in the past. */
  predicate Sane(s: State) {
    forall k :: k in s.rows ==> s.rows[k].start <= s.now
  }

  /** The limit that a slot's name stands for. */
  function LimitOf(k: (string, string)): nat {
    if k.1 == "global" then 10000
    else if "source:" <= k.1 then if k.0 == "invitation" then 30 else 60
    else if "target:" <= k.1 then 5
    else 30
  }

  predicate Uniform(buckets: seq<Bucket>, k: (string, string), limit: nat) {
    forall b :: b in buckets && Slot(b) == k ==> b.limit == limit
  }

  /** Whoever asks, a slot is always charged against its one limit. */
  lemma OneLimitPerSlot(action: string, source: string, target: string, k: (string, string))
    ensures Uniform(Buckets(action, source, target), k, LimitOf(k))
  {
    var s, t, a := "source:" + source, "target:" + source + ":" + target, "account:" + target;
    assert s[0] == 's' && t[0] == 't' && a[0] == 'a' && "global"[0] == 'g';
    assert "source:" <= s && "target:" <= t;
    assert !("source:" <= t) && !("source:" <= a) && !("target:" <= a);
    assert s != "global" && t != "global" && a != "global";
    forall b | b in Buckets(action, source, target) && Slot(b) == k ensures b.limit == LimitOf(k) {
    }
  }

  /** How often the loop lets slot `k` pass. */
  function Passed(rows: Rows, now: Time, buckets: seq<Bucket>, k: (string, string)): nat
    decreases |buckets|
  {
    if buckets == [] then 0
    else if !Passes(rows, now, buckets[0]) then 0
    else (if Slot(buckets[0]) == k then 1 else 0) + Passed(Charge(rows, now, buckets[0]), now, buckets[1..], k)
  }

  function Room(limit: nat, attempts: nat): nat {
    if attempts < limit then limit - attempts else 0
  }

  // Within one window.

  /** How often slot `k` passes in the window that starts at `w`. */
  function InWindow(s: State, run: seq<Event>, k: (string, string), w: Time): nat
    decreases |run|
  {
    if run == [] then 0
    else
      var t := Step(s, run[0]);
      (if run[0].Attempt? && k in t.rows && t.rows[k].start == w then Passed(s.rows, s.now, BucketsOf(run[0]), k)
        else 0)
      + InWindow(t, run[1..], k, w)
  }

  function WindowRoom(rows: Rows, now: Time, k: (string, string), w: Time, limit: nat): nat {
    if k in rows && rows[k].start == w then Room(limit, rows[k].attempts)
    else if now <= w && (k in rows ==> rows[k].start < w) then limit
    else 0
  }

  lemma ChargeUsesWindowRoom(rows: Rows, now: Time, b: Bucket, k: (string, string), w: Time)
    requires k in rows ==> rows[k].start <= now
    ensures var rows' := Charge(rows, now, b);
            && (k in rows' ==> rows'[k].start <= now)
            && (Slot(b) == k && Passes(rows, now, b) && rows'[k].start == w ==>
                  WindowRoom(rows', now, k, w, b.limit) + 1 <= WindowRoom(rows, now, k, w, b.limit))
            && (Slot(b) == k ==> WindowRoom(rows', now, k, w, b.limit) <= WindowRoom(rows, now, k, w, b.limit))
  {
  }

  lemma {:induction false} LoopUsesWindowRoom(rows: Rows, now: Time, buckets: seq<Bucket>, k: (string, string),
      w: Time, limit: nat)
    requires Uniform(buckets, k, limit) && (k in rows ==> rows[k].start <= now)
    ensures var rows' := Admitting(rows, now, buckets).0;
            && (k in rows' ==> rows'[k].start <= now)
            && (k in rows' && rows'[k].start == w ==>
                  Passed(rows, now, buckets, k) + WindowRoom(rows', now, k, w, limit) <= WindowRoom(rows, now, k, w,
                    limit))
            && WindowRoom(rows', now, k, w, limit) <= WindowRoom(rows, now, k, w, limit)
            && (k in rows && rows[k].start + WINDOW > now ==> k in rows' && rows'[k].start == rows[k].start)
            && (Passed(rows, now, buckets, k) > 0 && !(k in rows && rows[k].start + WINDOW > now) ==>
                 k in rows' && rows'[k].start == now)
    decreases |buckets|
  {
    if buckets != [] {
      var b := buckets[0];
      var rows1 := Charge(rows, now, b);
      assert b in buckets;
      ChargeUsesWindowRoom(rows, now, b, k, w);
      if Passes(rows, now, b) {
        assert Uniform(buckets[1..], k, limit);
        LoopUsesWindowRoom(rows1, now, buckets[1..], k, w, limit);
      }
    }
  }

  lemma StepUsesWindowRoom(s: State, e: Event, k: (string, string), w: Time, limit: nat)
    requires Sane(s) && limit == LimitOf(k)
    ensures var t := Step(s, e);
            && Sane(t)
            && (if e.Attempt? && k in t.rows && t.rows[k].start == w then Passed(s.rows, s.now, BucketsOf(e), k) else 0)
               + WindowRoom(t.rows, t.now, k, w, limit) <= WindowRoom(s.rows, s.now, k, w, limit)
  {
    if e.Attempt? {
      hide Passes, Room, Buckets, LimitOf;
      OneLimitPerSlot(e.action, e.source, e.target, k);
      LoopUsesWindowRoom(s.rows, s.now, BucketsOf(e), k, w, limit);
      forall j | j in Step(s, e).rows ensures Step(s, e).rows[j].start <= s.now {
        LoopStartsInThePast(s.rows, s.now, BucketsOf(e), j);
      }
    }
  }

  lemma {:induction false} LoopStartsInThePast(rows: Rows, now: Time, buckets: seq<Bucket>, k: (string, string))
    requires k in rows ==> rows[k].start <= now
    ensures var rows' := Admitting(rows, now, buckets).0; k in rows' ==> rows'[k].start <= now
    decreases |buckets|
  {
    if buckets != [] && Passes(rows, now, buckets[0]) {
      LoopStartsInThePast(Charge(rows, now, buckets[0]), now, buckets[1..], k);
    }
  }

  lemma {:induction false} WindowBound(s: State, run: seq<Event>, k: (string, string), w: Time, limit: nat)
    requires Sane(s) && limit == LimitOf(k)
    ensures InWindow(s, run, k, w) <= WindowRoom(s.rows, s.now, k, w, limit)
    decreases |run|
  {
    if run != [] {
      StepUsesWindowRoom(s, run[0], k, w, limit);
      hide Step, Sane, WindowRoom;
      WindowBound(Step(s, run[0]), run[1..], k, w, limit);
    }
  }

  /** A bucket passes at most `limit` attempts in a window. */
  lemma AtMostLimitPerWindow(s: State, run: seq<Event>, k: (string, string), w: Time)
    requires Sane(s)
    ensures InWindow(s, run, k, w) <= LimitOf(k)
  {
    hide Step, Sane, LimitOf;
    WindowBound(s, run, k, w, LimitOf(k));
  }

  // Nor fewer: a window is used up before anything is refused.

  /** The bucket lets another attempt pass. */
  predicate HasRoom(rows: Rows, now: Time, k: (string, string), limit: nat) {
    k in rows && rows[k].start + 60 > now ==> rows[k].attempts < limit
  }

  lemma PassesExactlyWithRoom(rows: Rows, now: Time, b: Bucket)
    requires b.limit > 0
    ensures Passes(rows, now, b) <==> HasRoom(rows, now, Slot(b), b.limit)
  {
  }

  /** The buckets are different slots, so charging one leaves the others. */
  lemma {:induction false} AdmitsExactlyWithRoom(rows: Rows, now: Time, buckets: seq<Bucket>)
    requires forall b :: b in buckets ==> b.limit > 0
    requires forall i, j :: 0 <= i < j < |buckets| ==> Slot(buckets[i]) != Slot(buckets[j])
    ensures Admitting(rows, now, buckets).1 <==> forall b :: b in buckets ==> HasRoom(rows, now, Slot(b), b.limit)
    decreases |buckets|
  {
    if buckets != [] {
      hide Passes, Charged;
      var b, rest := buckets[0], buckets[1..];
      assert b in buckets;
      PassesExactlyWithRoom(rows, now, b);
      var rows1 := Charge(rows, now, b);
      AdmitsExactlyWithRoom(rows1, now, rest);
      assert forall c :: c in buckets <==> c == b || c in rest;
      forall c | c in rest ensures HasRoom(rows1, now, Slot(c), c.limit) == HasRoom(rows, now, Slot(c), c.limit) {
        var i :| 0 <= i < |rest| && rest[i] == c;
        assert Slot(buckets[0]) != Slot(buckets[i + 1]);
      }
    }
  }

  /** A request is let in if and only if each of its buckets has room: 10000 for
      everyone, 60 for its source, or 30 for invitations, and with a target 5 for
      that source and target and 30 for the account. */
  lemma AdmittedExactlyWhen(rows: Rows, now: Time, action: string, source: string, target: string)
    ensures Admitting(rows, now, Buckets(action, source, target)).1 <==>
              && HasRoom(rows, now, (action, "global"), 10000)
              && HasRoom(rows, now, (action, "source:" + source), if action == "invitation" then 30 else 60)
              && (target != "" ==>
                    && HasRoom(rows, now, (action, "target:" + source + ":" + target), 5)
                    && HasRoom(rows, now, (action, "account:" + target), 30))
  {
    var s, t, a := "source:" + source, "target:" + source + ":" + target, "account:" + target;
    assert s[0] == 's' && t[0] == 't' && a[0] == 'a' && "global"[0] == 'g';
    hide HasRoom, Admitting;
    AdmitsExactlyWithRoom(rows, now, Buckets(action, source, target));
    var buckets := Buckets(action, source, target);
    assert buckets[0] in buckets && buckets[1] in buckets;
    if target != "" {
      assert buckets[2] in buckets && buckets[3] in buckets;
    }
  }

  /** The slot has the window that starts at `w`, or can still get it. */
  predicate Possible(rows: Rows, now: Time, k: (string, string), w: Time) {
    (k in rows && rows[k].start == w) || (now <= w && (k in rows ==> rows[k].start < w))
  }

  lemma ChargeCounts(rows: Rows, now: Time, b: Bucket, k: (string, string), w: Time)
    requires b.limit > 0 && Possible(Charge(rows, now, b), now, k, w)
    ensures var rows' := Charge(rows, now, b);
            && Possible(rows, now, k, w)
            && (Slot(b) == k ==>
                  (if Passes(rows, now, b) && rows'[k].start == w then 1 else 0)
                  + WindowRoom(rows', now, k, w, b.limit) ==
                  WindowRoom(rows, now, k, w, b.limit))
  {
  }

  lemma {:induction false} LoopCounts(
    rows: Rows, now: Time, buckets: seq<Bucket>, k: (string, string), w: Time, limit: nat)
    requires Uniform(buckets, k, limit) && limit > 0 && Possible(Admitting(rows, now, buckets).0, now, k, w)
    ensures var rows' := Admitting(rows, now, buckets).0;
            && Possible(rows, now, k, w)
            && (if k in rows' && rows'[k].start == w then Passed(rows, now, buckets, k) else 0)
               + WindowRoom(rows', now, k, w, limit) == WindowRoom(rows, now, k, w, limit)
            && (Passed(rows, now, buckets, k) > 0 ==> k in rows')
            && (k in rows && rows[k].start + WINDOW > now ==> k in rows' && rows'[k].start == rows[k].start)
            && (Passed(rows, now, buckets, k) > 0 && !(k in rows && rows[k].start + WINDOW > now) ==>
                 rows'[k].start == now)
    decreases |buckets|
  {
    if buckets != [] {
      var b := buckets[0];
      var rows1 := Charge(rows, now, b);
      assert b in buckets;
      if Passes(rows, now, b) {
        assert Uniform(buckets[1..], k, limit);
        LoopCounts(rows1, now, buckets[1..], k, w, limit);
      }
      if Slot(b) == k {
        ChargeCounts(rows, now, b, k, w);
      }
    }
  }

  lemma StepCounts(s: State, e: Event, k: (string, string), w: Time)
    requires Possible(Step(s, e).rows, Step(s, e).now, k, w)
    ensures var t := Step(s, e);
            && Possible(s.rows, s.now, k, w)
            && (if e.Attempt? && k in t.rows && t.rows[k].start == w then Passed(s.rows, s.now, BucketsOf(e), k) else 0)
               + WindowRoom(t.rows, t.now, k, w, LimitOf(k)) == WindowRoom(s.rows, s.now, k, w, LimitOf(k))
  {
    if e.Attempt? {
      assert LimitOf(k) > 0;
      hide Passes, Room, Buckets, LimitOf, Possible, WindowRoom;
      OneLimitPerSlot(e.action, e.source, e.target, k);
      LoopCounts(s.rows, s.now, BucketsOf(e), k, w, LimitOf(k));
    }
  }

  lemma {:induction false} WindowCountsExactly(s: State, run: seq<Event>, k: (string, string), w: Time)
    requires Possible(After(s, run).rows, After(s, run).now, k, w)
    ensures Possible(s.rows, s.now, k, w)
    ensures InWindow(s, run, k, w) + WindowRoom(After(s, run).rows, After(s, run).now, k, w, LimitOf(k)) ==
            WindowRoom(s.rows, s.now, k, w, LimitOf(k))
    decreases |run|
  {
    hide Possible, WindowRoom, Step, LimitOf;
    if run != [] {
      WindowCountsExactly(Step(s, run[0]), run[1..], k, w);
      StepCounts(s, run[0], k, w);
    }
  }

  /** In every run, a bucket without room has let exactly its limit pass in its
      present window: nothing is refused before. */
  lemma RefusedOnlyWhenUsedUp(now: Time, run: seq<Event>, k: (string, string))
    ensures var s := After(State(now, map[]), run);
            !HasRoom(s.rows, s.now, k, LimitOf(k)) ==>
              k in s.rows && InWindow(State(now, map[]), run, k, s.rows[k].start) == LimitOf(k)
  {
    hide Step, LimitOf, InWindow;
    var s := After(State(now, map[]), run);
    if !HasRoom(s.rows, s.now, k, LimitOf(k)) {
      WindowCountsExactly(State(now, map[]), run, k, s.rows[k].start);
    }
  }

  // Within any minute.

  /** How often slot `k` passes from `a` to just before `a + 60`. */
  function InMinute(s: State, run: seq<Event>, k: (string, string), a: Time): nat
    decreases |run|
  {
    if run == [] then 0
    else
      (if run[0].Attempt? && a <= s.now < a + WINDOW then Passed(s.rows, s.now, BucketsOf(run[0]), k) else 0)
      + InMinute(Step(s, run[0]), run[1..], k, a)
  }

  /** How many passes the minute from `a` can still see. */
  function MinuteRoom(rows: Rows, now: Time, k: (string, string), a: Time, limit: nat): nat {
    if now >= a + WINDOW then 0
    else if k !in rows || rows[k].start + WINDOW <= a then 2 * limit
    else if rows[k].start < a then Room(limit, rows[k].attempts) + limit
    else Room(limit, rows[k].attempts)
  }

  lemma ChargeUsesMinuteRoom(rows: Rows, now: Time, b: Bucket, a: Time)
    requires Slot(b) in rows ==> rows[Slot(b)].start <= now
    ensures MinuteRoom(Charge(rows, now, b), now, Slot(b), a, b.limit)
            + (if Passes(rows, now, b) && a <= now < a + WINDOW then 1 else 0) <= MinuteRoom(rows, now, Slot(b), a,
              b.limit)
  {
  }

  lemma {:induction false} LoopUsesMinuteRoom(rows: Rows, now: Time, buckets: seq<Bucket>, k: (string, string),
      a: Time, limit: nat)
    requires Uniform(buckets, k, limit) && (k in rows ==> rows[k].start <= now)
    ensures MinuteRoom(Admitting(rows, now, buckets).0, now, k, a, limit)
            + (if a <= now < a + WINDOW then Passed(rows, now, buckets, k) else 0) <= MinuteRoom(rows, now, k, a, limit)
    decreases |buckets|
  {
    if buckets != [] {
      var b := buckets[0];
      assert b in buckets;
      if Slot(b) == k {
        ChargeUsesMinuteRoom(rows, now, b, a);
      }
      if Passes(rows, now, b) {
        assert Uniform(buckets[1..], k, limit);
        LoopUsesMinuteRoom(Charge(rows, now, b), now, buckets[1..], k, a, limit);
      }
    }
  }

  lemma StepUsesMinuteRoom(s: State, e: Event, k: (string, string), a: Time, limit: nat)
    requires Sane(s) && limit == LimitOf(k)
    ensures MinuteRoom(Step(s, e).rows, Step(s, e).now, k, a, limit)
            + (if e.Attempt? && a <= s.now < a + WINDOW then Passed(s.rows, s.now, BucketsOf(e), k)
              else 0) <= MinuteRoom(s.rows, s.now, k, a, limit)
  {
    if e.Attempt? {
      hide Buckets, LimitOf;
      OneLimitPerSlot(e.action, e.source, e.target, k);
      LoopUsesMinuteRoom(s.rows, s.now, BucketsOf(e), k, a, limit);
    }
  }

  lemma {:induction false} MinuteBound(s: State, run: seq<Event>, k: (string, string), a: Time, limit: nat)
    requires Sane(s) && limit == LimitOf(k)
    ensures InMinute(s, run, k, a) <= MinuteRoom(s.rows, s.now, k, a, limit)
    decreases |run|
  {
    if run != [] {
      StepUsesWindowRoom(s, run[0], k, 0, limit);
      StepUsesMinuteRoom(s, run[0], k, a, limit);
      hide Step, Sane, MinuteRoom, WindowRoom;
      MinuteBound(Step(s, run[0]), run[1..], k, a, limit);
    }
  }

  /** A bucket passes at most twice `limit` attempts in any half-open minute. */
  lemma AtMostTwiceLimitPerMinute(s: State, run: seq<Event>, k: (string, string), a: Time)
    requires Sane(s)
    ensures InMinute(s, run, k, a) <= 2 * LimitOf(k)
  {
    hide Step, Sane, LimitOf;
    MinuteBound(s, run, k, a, LimitOf(k));
  }

  // Sweeping does not matter.

  function Verdicts(s: State, run: seq<Event>): seq<bool>
    decreases |run|
  {
    if run == [] then []
    else (if run[0].Attempt? then [Admitting(s.rows, s.now, BucketsOf(run[0])).1]
      else []) + Verdicts(Step(s, run[0]), run[1..])
  }

  function Unswept(run: seq<Event>): seq<Event> {
    if run == [] then [] else (if run[0].Clean? then [] else [run[0]]) + Unswept(run[1..])
  }

  /** `swept` lacks only rows whose window is over. */
  predicate Alike(now: Time, swept: Rows, rows: Rows) {
    && (forall k :: k in swept ==> k in rows && rows[k] == swept[k])
    && (forall k :: k in rows && k !in swept ==> rows[k].start + WINDOW <= now)
  }

  lemma {:induction false} LoopIgnoresSweeps(swept: Rows, rows: Rows, now: Time, buckets: seq<Bucket>)
    requires Alike(now, swept, rows)
    ensures Admitting(swept, now, buckets).1 == Admitting(rows, now, buckets).1
    ensures Alike(now, Admitting(swept, now, buckets).0, Admitting(rows, now, buckets).0)
    decreases |buckets|
  {
    if buckets != [] {
      assert Charged(swept, now, buckets[0]) == Charged(rows, now, buckets[0]);
      if Passes(swept, now, buckets[0]) {
        LoopIgnoresSweeps(Charge(swept, now, buckets[0]), Charge(rows, now, buckets[0]), now, buckets[1..]);
      }
    }
  }

  lemma {:induction false} AlikeVerdicts(s: State, t: State, run: seq<Event>)
    requires s.now == t.now && Alike(s.now, s.rows, t.rows)
    ensures Verdicts(s, run) == Verdicts(t, Unswept(run))
    decreases |run|
  {
    hide Buckets;
    if run != [] {
      var e := run[0];
      if e.Clean? {
        AlikeVerdicts(Step(s, e), t, run[1..]);
        assert Unswept(run) == Unswept(run[1..]);
      } else {
        if e.Attempt? {
          LoopIgnoresSweeps(s.rows, t.rows, s.now, BucketsOf(e));
        }
        AlikeVerdicts(Step(s, e), Step(t, e), run[1..]);
        assert Unswept(run) == [e] + Unswept(run[1..]);
        assert ([e] + Unswept(run[1..]))[1..] == Unswept(run[1..]);
      }
    }
  }

  /** Whichever rows older than ten minutes are swept, and whenever, every later
      verdict is what it would have been without. */
  lemma SweepingChangesNoVerdict(s: State, run: seq<Event>)
    ensures Verdicts(s, run) == Verdicts(s, Unswept(run))
  {
    AlikeVerdicts(s, s, run);
  }

  // A refusal stops the charging.

  /** Buckets after the first refusal are left as they were. */
  lemma {:induction false} RefusalLeavesTheRest(rows: Rows, now: Time, before: seq<Bucket>, b: Bucket,
      rest: seq<Bucket>)
    requires var (rows', ok) := Admitting(rows, now, before); ok && !Passes(rows', now, b)
    ensures Admitting(rows, now, before + [b] + rest) == (Charge(Admitting(rows, now, before).0, now, b), false)
    decreases |before|
  {
    if before == [] {
      assert before + [b] + rest == [b] + rest;
    } else {
      RefusalLeavesTheRest(Charge(rows, now, before[0]), now, before[1..], b, rest);
      assert (before + [b] + rest)[1..] == before[1..] + [b] + rest;
    }
  }

  class Admissions {
    var rows: Rows

    constructor ()
      ensures rows == map[]
    {
      rows := map[];
    }

    /** admit: the loop over the buckets, then a sweep of old rows; the counts
        are committed whether or not the request is admitted. */
    method Admit(action: string, source: string, target: string, now: Time, gone: set<(string, string)>)
        returns (admitted: bool)
      modifies this
      ensures var (charged, ok) := Admitting(old(rows), now, Buckets(action, source, target));
              admitted == ok && rows == Sweep(charged, now, gone)
    {
      var buckets := Buckets(action, source, target);
      admitted := true;
      var i := 0;
      while i < |buckets| && admitted
        invariant 0 <= i <= |buckets|
        invariant if admitted then Admitting(old(rows), now, buckets) == Admitting(rows, now, buckets[i..])
                  else Admitting(old(rows), now, buckets) == (rows, false)
      {
        var b := buckets[i];
        var passes := Passes(rows, now, b);
        rows := Charge(rows, now, b);
        if !passes {
          admitted := false;
        }
        i := i + 1;
      }
      rows := Sweep(rows, now, gone);
    }
  }
}
