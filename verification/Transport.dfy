/** The identity transport of internal/access/oidc_transport.go: a connection
    timeout shared by the addresses of a host, and a response body cut off at one
    mebibyte. */
module Transport {
  import opened Common

  // Sharing a deadline.

  /** One dial: how long it took, and whether it connected. Times are in
      nanoseconds. */
  datatype Attempt = Attempt(used: nat, connected: bool)

  /** What remains of `total` after the first `i` attempts. */
  function Remaining(total: nat, attempts: seq<Attempt>, i: nat): int
    requires i <= |attempts|
  {
    if i == 0 then total else Remaining(total, attempts, i - 1) - attempts[i - 1].used
  }

  function Share(rest: int, m: nat): int
    requires m > 0
  {
    rest / m
  }

  /** The share of the time that remains which the attempt numbered `i` gets. */
  function Slice(total: nat, attempts: seq<Attempt>, i: nat): int
    requires i < |attempts|
  {
    Share(Remaining(total, attempts, i), |attempts| - i)
  }

  /** Every attempt before `k` ended within its slice. */
  predicate Punctual(total: nat, attempts: seq<Attempt>, k: nat)
    requires k <= |attempts|
  {
    forall i :: 0 <= i < k ==> attempts[i].used <= Slice(total, attempts, i)
  }

  /** `rest` is enough for `m` shares of `q`. */
  predicate Covers(rest: int, m: nat, q: int) {
    rest >= m * q
  }

  lemma Scaled(m: nat, a: int, b: int)
    requires a <= b
    ensures m * a <= m * b
  {
  }

  lemma Divided(rest: nat, m: nat)
    requires m > 0
    ensures m * (rest / m) <= rest < m * (rest / m + 1)
  {
  }

  lemma WholeCovers(total: nat, n: nat)
    requires n > 0
    ensures Covers(total, n, Share(total, n)) && Share(total, n) >= 0
  {
    Divided(total, n);
    var a := Share(total, n);
    if a + 1 <= 0 {
      Scaled(n, a + 1, 0);
    }
  }

  lemma ShareIsEnough(rest: nat, m: nat, q: int)
    requires m > 0 && Covers(rest, m, q)
    ensures Share(rest, m) >= q
  {
    var a := Share(rest, m);
    Divided(rest, m);
    if a + 1 <= q {
      Scaled(m, a + 1, q);
    }
  }

  /** Taking a share leaves the others at least the same share each. */
  lemma ShareLeavesEnough(rest: nat, m: nat, used: nat, q: int)
    requires m > 0 && q >= 0 && Covers(rest, m, q) && used <= Share(rest, m)
    ensures rest - used >= 0 && Covers(rest - used, m - 1, q)
  {
    var a := Share(rest, m);
    Divided(rest, m);
    ShareIsEnough(rest, m, q);
    Scaled(m - 1, q, a);
    Scaled(m - 1, 0, a);
    assert m * a == (m - 1) * a + a;
  }

  /** What remains always covers an equal share for each address still to come. */
  lemma {:induction false} RemainingCoversTheRest(total: nat, attempts: seq<Attempt>, i: nat)
    requires attempts != [] && i <= |attempts| && Punctual(total, attempts, i)
    ensures Remaining(total, attempts, i) >= 0
            && Covers(Remaining(total, attempts, i), |attempts| - i, Share(total, |attempts|))
  {
    hide Covers, Share;
    WholeCovers(total, |attempts|);
    if i > 0 {
      RemainingCoversTheRest(total, attempts, i - 1);
      assert attempts[i - 1].used <= Slice(total, attempts, i - 1);
      ShareLeavesEnough(Remaining(total, attempts, i - 1), |attempts| - i + 1, attempts[i - 1].used,
        Share(total, |attempts|));
    }
  }

  /** If each attempt ends within its slice, every address gets at least an equal
      share of the whole time. */
  lemma EveryAddressGetsItsShare(total: nat, attempts: seq<Attempt>, i: nat)
    requires i < |attempts| && Punctual(total, attempts, i)
    ensures Slice(total, attempts, i) >= Share(total, |attempts|)
  {
    hide Covers, Share;
    RemainingCoversTheRest(total, attempts, i);
    ShareIsEnough(Remaining(total, attempts, i), |attempts| - i, Share(total, |attempts|));
  }

  function TotalUsed(attempts: seq<Attempt>, i: nat): nat
    requires i <= |attempts|
  {
    if i == 0 then 0 else TotalUsed(attempts, i - 1) + attempts[i - 1].used
  }

  /** All attempts together never take more than the whole time. */
  lemma {:induction false} AttemptsStayWithinTheDeadline(total: nat, attempts: seq<Attempt>, i: nat)
    requires attempts != [] && i <= |attempts| && Punctual(total, attempts, i)
    ensures TotalUsed(attempts, i) <= total && Remaining(total, attempts, i) == total - TotalUsed(attempts, i)
  {
    hide Covers, Share;
    RemainingCoversTheRest(total, attempts, i);
    if i > 0 {
      AttemptsStayWithinTheDeadline(total, attempts, i - 1);
    }
  }

  /** Where attempt `i` stands: its slice is a share of the time not yet used. */
  lemma NextSlice(total: nat, attempts: seq<Attempt>, i: nat)
    requires i < |attempts| && Punctual(total, attempts, |attempts|)
    ensures TotalUsed(attempts, i) <= total && TotalUsed(attempts, i) + attempts[i].used <= total
    ensures Slice(total, attempts, i) == Share(total - TotalUsed(attempts, i), |attempts| - i)
  {
    hide Share, TotalUsed;
    AttemptsStayWithinTheDeadline(total, attempts, i);
    AttemptsStayWithinTheDeadline(total, attempts, i + 1);
    assert TotalUsed(attempts, i + 1) == TotalUsed(attempts, i) + attempts[i].used by { UsedNext(attempts, i); }
  }

  lemma UsedNext(attempts: seq<Attempt>, i: nat)
    requires i < |attempts|
    ensures TotalUsed(attempts, i + 1) == TotalUsed(attempts, i) + attempts[i].used
  {
  }

  /** oidcDialAddresses: the first address that connects, tried in order, each
      within its slice of what remains. */
  method DialAddresses(total: nat, attempts: seq<Attempt>) returns (connected: Option<nat>, slices: seq<int>, used: nat)
    requires attempts != [] ==> Punctual(total, attempts, |attempts|)
    ensures connected.Some? ==> connected.value < |attempts| && attempts[connected.value].connected
                                && |slices| == connected.value + 1 && forall i ::
                                     0 <= i < connected.value ==> !attempts[i].connected
    ensures |slices| <= |attempts| && (connected.None? ==> forall i :: 0 <= i < |slices| ==> !attempts[i].connected)
    ensures forall i :: 0 <= i < |slices| ==> slices[i] == Slice(total, attempts, i)
    ensures connected.None? && |slices| < |attempts| ==> used == total
    ensures used <= total
  {
    hide Share, Slice, Punctual, TotalUsed;
    connected, slices, used := None, [], 0;
    assert TotalUsed(attempts, 0) == 0 by { NoneUsed(attempts); }
    var i := 0;
    while i < |attempts|
      invariant 0 <= i <= |attempts| && |slices| == i
      invariant forall k :: 0 <= k < i ==> slices[k] == Slice(total, attempts, k) && !attempts[k].connected
      invariant used == TotalUsed(attempts, i) && used <= total
    {
      NextSlice(total, attempts, i);
      UsedNext(attempts, i);
      if used == total {
        return;
      }
      slices := slices + [Share(total - used, |attempts| - i)];
      used := used + attempts[i].used;
      if attempts[i].connected {
        return Some(i), slices, used;
      }
      i := i + 1;
    }
  }

  lemma NoneUsed(attempts: seq<Attempt>)
    ensures TotalUsed(attempts, 0) == 0
  {
  }

  // Cutting off a body.

  const BODY_LIMIT: nat := 0x10_0000

  /** The body under oidcBody: what it will yield, and how far it has been read. */
  datatype Source<T> = Source(body: seq<T>, at: nat)

  /** One call: the caller's buffer size, and how many bytes the source below
      chooses to give; it may report the end together with the last bytes. */
  datatype Call = Call(size: nat, give: nat, end: bool)

  datatype Outcome<T> = Outcome(bytes: seq<T>, failed: bool, ended: bool)

  datatype Cut<T> = Cut(source: Source<T>, remaining: int)

  predicate Sane<T>(c: Cut<T>) {
    c.source.at <= |c.source.body| && c.remaining == BODY_LIMIT - c.source.at && c.remaining >= -1
  }

  function Clipped(remaining: int, size: nat): nat
    requires remaining >= -1
  {
    if size > remaining + 1 then remaining + 1 else size
  }

  /** What the source below gives for a buffer of `size`. */
  function Given<T>(s: Source<T>, size: nat, call: Call): nat
    requires s.at <= |s.body|
  {
    var most := if size < |s.body| - s.at then size else |s.body| - s.at;
    if call.give < most then call.give else most
  }

  function Read<T>(c: Cut<T>, call: Call): (Cut<T>, Outcome<T>)
    requires Sane(c)
  {
    var n := Given(c.source, Clipped(c.remaining, call.size), call);
    var at := c.source.at + n;
    var c' := Cut(c.source.(at := at), c.remaining - n);
    if c'.remaining < 0 then (c', Outcome([], true, false))
    else (c', Outcome(c.source.body[c.source.at..at], false, call.end && at == |c.source.body|))
  }

  lemma ReadIsSane<T>(c: Cut<T>, call: Call)
    requires Sane(c)
    ensures Sane(Read(c, call).0) && Read(c, call).0.source.body == c.source.body
            && Read(c, call).0.source.at >= c.source.at
  {
  }

  function Start<T>(body: seq<T>): Cut<T> {
    Cut(Source(body, 0), BODY_LIMIT)
  }

  function After<T>(c: Cut<T>, calls: seq<Call>): (r: Cut<T>)
    requires Sane(c)
    ensures Sane(r) && r.source.body == c.source.body && r.source.at >= c.source.at
    decreases |calls|
  {
    if calls == [] then c
    else
      ReadIsSane(c, calls[0]);
      After(Read(c, calls[0]).0, calls[1..])
  }

  /** All bytes that a sequence of calls hands over. */
  function Delivered<T>(c: Cut<T>, calls: seq<Call>): seq<T>
    requires Sane(c)
    decreases |calls|
  {
    if calls == [] then []
    else
      ReadIsSane(c, calls[0]);
      Read(c, calls[0]).1.bytes + Delivered(Read(c, calls[0]).0, calls[1..])
  }

  /** One call hands over what it read, or fails and stays failed. */
  lemma ReadGives<T>(c: Cut<T>, call: Call)
    requires Sane(c)
    ensures var (c', y) := Read(c, call);
            && Sane(c') && c'.source.body == c.source.body && c'.source.at >= c.source.at
               && (c.remaining < 0 ==> c'.remaining < 0)
            && y.bytes == if c'.remaining < 0 then [] else c.source.body[c.source.at..c'.source.at]
  {
  }

  /** The bytes handed over from `c` on until `end` are those of the body. */
  predicate Hands<T(==)>(c: Cut<T>, d: seq<T>, end: Cut<T>) {
    && c.source.at + |d| <= |c.source.body| && d == c.source.body[c.source.at..c.source.at + |d|]
    && (c.remaining < 0 ==> d == []) && (c.remaining >= 0 ==> c.source.at + |d| <= BODY_LIMIT)
    && (end.remaining >= 0 ==> c.source.at + |d| == end.source.at)
  }

  lemma Joined<T>(body: seq<T>, a: nat, b: nat, n: nat)
    requires a <= b && b + n <= |body|
    ensures body[a..b] + body[b..b + n] == body[a..b + n]
  {
  }

  lemma ReadHands<T>(c: Cut<T>, call: Call, d: seq<T>, end: Cut<T>)
    requires Sane(c) && Hands(Read(c, call).0, d, end) && (Read(c, call).0.remaining < 0 ==> end.remaining < 0)
    ensures Hands(c, Read(c, call).1.bytes + d, end)
  {
    hide Read;
    ReadGives(c, call);
    var c' := Read(c, call).0;
    if c'.remaining >= 0 {
      Joined(c.source.body, c.source.at, c'.source.at, |d|);
    }
  }

  /** Until it fails, a cut body hands over exactly what was read. */
  lemma {:induction false} DeliversWhatWasRead<T>(c: Cut<T>, calls: seq<Call>)
    requires Sane(c)
    ensures Hands(c, Delivered(c, calls), After(c, calls)) && (c.remaining < 0 ==> After(c, calls).remaining < 0)
    decreases |calls|
  {
    hide Read, Hands;
    if calls == [] {
      NothingHandedOver(c);
    } else {
      ReadGives(c, calls[0]);
      var c' := Read(c, calls[0]).0;
      DeliversWhatWasRead(c', calls[1..]);
      ReadHands(c, calls[0], Delivered(c', calls[1..]), After(c', calls[1..]));
    }
  }

  lemma NothingHandedOver<T>(c: Cut<T>)
    requires Sane(c)
    ensures Hands(c, [], c)
  {
  }

  /** Over any read sizes a body yields an unmodified prefix of at most 2^20 bytes. */
  lemma BodyIsAPrefix<T>(body: seq<T>, calls: seq<Call>)
    ensures Delivered(Start(body), calls) <= body && |Delivered(Start(body), calls)| <= BODY_LIMIT
  {
    DeliversWhatWasRead(Start(body), calls);
  }

  /** A body that fits never fails, and its end is only reported with all of it
      handed over; a body that does not fit never reports its end. */
  lemma FittingBodyIsWhole<T>(body: seq<T>, calls: seq<Call>, call: Call)
    ensures var c := After(Start(body), calls); var y := Read(c, call).1;
            && (|body| <= BODY_LIMIT ==> !y.failed && (y.ended ==> Delivered(Start(body), calls) + y.bytes == body))
            && (|body| > BODY_LIMIT ==> !y.ended)
  {
    DeliversWhatWasRead(Start(body), calls);
  }

  /** A failure persists: nothing more is handed over and every later call fails. */
  lemma FailurePersists<T>(c: Cut<T>, call: Call, calls: seq<Call>, later: Call)
    requires Sane(c) && Read(c, call).1.failed
    ensures var c1 := Read(c, call).0;
            && Sane(c1) && Delivered(c1, calls) == [] && Read(After(c1, calls), later).1.failed
               && |c.source.body| > BODY_LIMIT
  {
    ReadIsSane(c, call);
    DeliversWhatWasRead(Read(c, call).0, calls);
    StaysNegative(Read(c, call).0, calls);
  }

  lemma {:induction false} StaysNegative<T>(c: Cut<T>, calls: seq<Call>)
    requires Sane(c) && c.remaining < 0
    ensures After(c, calls).remaining < 0
    decreases |calls|
  {
    if calls != [] {
      ReadIsSane(c, calls[0]);
      StaysNegative(Read(c, calls[0]).0, calls[1..]);
    }
  }

  /** oidcBody, updated in place. */
  class Body<T> {
    var source: Source<T>
    var remaining: int

    function View(): Cut<T>
      reads this
    {
      Cut(source, remaining)
    }

    constructor (body: seq<T>)
      ensures View() == Start(body)
    {
      source, remaining := Source(body, 0), BODY_LIMIT;
    }

    /** oidcBody.Read on a buffer of call.size bytes. */
    method ReadInto(call: Call) returns (y: Outcome<T>)
      requires Sane(View())
      modifies this
      ensures (View(), y) == Read(old(View()), call) && Sane(View())
    {
      var size := call.size;
      if size > remaining + 1 {
        size := remaining + 1;
      }
      var n := Given(source, size, call);
      var bytes := source.body[source.at..source.at + n];
      source := source.(at := source.at + n);
      remaining := remaining - n;
      if remaining < 0 {
        return Outcome([], true, false);
      }
      return Outcome(bytes, false, call.end && source.at == |source.body|);
    }
  }
}
