/** API keys that rotate and revoke, and the idempotent mutations they run
    under: transitionKey and updateAPIKey of internal/access/keys.go, Replay and
    CompleteReplay of internal/access/replay.go.

    Each handler is one transaction under the installation lock. A secret is
    named by its lookup id. Digests are injective, so a request's fingerprint is
    the request itself. */
module Keys {
  import opened Common

  const DAY: Time := 86400
  const MAX_OVERLAPS: nat := 8

  /** olp.api_keys. `limitLookup` is null until the first rotation. */
  datatype Key = Key(etag: Id, lookup: Id, limitLookup: Option<Id>, expires: Option<Time>, revoked: bool)

  /** olp.api_key_overlaps, keyed by lookup id. */
  datatype Overlap = Overlap(key: Id, expires: Time)

  /** The operations that run under an Idempotency-Key here. */
  datatype Operation =
    | Create(expires: Option<Time>)
    | Rotate(key: Id, overlap: nat)
    | Revoke(key: Id)

  datatype Fingerprint = Fingerprint(op: Operation, ifMatch: Option<Id>)

  datatype Reply =
    | Refused
    | Created(key: Id, etag: Id, lookup: Id)
    | Rotated(key: Id, etag: Id, lookup: Id, until: Option<Time>)
    | Revoked(key: Id, etag: Id)
    | Updated(key: Id, etag: Id)
    | Done

  /** olp.replays, and the sealed replies in olp.secrets. */
  datatype Replay = Replay(fingerprint: Fingerprint, secret: Id, expires: Time)
  datatype Stored = Stored(reply: Reply, expires: Time)

  datatype State = State(
    now: Time, next: Id, keys: map<Id, Key>, overlaps: map<Id, Overlap>,
    replays: map<(Id, string), Replay>, secrets: map<Id, Stored>)

  datatype Request =
    | Mutate(actor: Id, idempotency: string, fingerprint: Fingerprint)
    | Update(key: Id, ifMatch: Option<Id>, expires: Option<Time>)
    | SweepSecrets(secrets: set<Id>)
    | SweepOverlaps(lookups: set<Id>)
    | Wait(until: Time)

  function Init(): State {
    State(0, 0, map[], map[], map[], map[])
  }

  // Replays.

  /** What Replay finds for a request: nothing, or an answer. */
  function Replayed(s: State, slot: (Id, string), f: Fingerprint): Option<Reply> {
    if |slot.1| < 1 || |slot.1| > 200 then Some(Refused)
    else if slot !in s.replays || s.replays[slot].expires <= s.now then None
    else if s.replays[slot].fingerprint != f then Some(Refused)
    else if s.replays[slot].secret !in s.secrets then Some(Refused)
    else Some(s.secrets[s.replays[slot].secret].reply)
  }

  /** CompleteReplay. */
  function Completed(s: State, slot: (Id, string), f: Fingerprint, y: Reply): State {
    s.(next := s.next + 1,
       secrets := s.secrets[s.next := Stored(y, s.now + DAY)],
       replays := s.replays[slot := Replay(f, s.next, s.now + DAY)])
  }

  // Keys.

  function OverlapsOf(overlaps: map<Id, Overlap>, k: Id): set<Id> {
    set l | l in overlaps && overlaps[l].key == k
  }

  /** The overlaps that survive a rotation of `k` with `overlap` seconds. */
  function Kept(s: State, k: Id, overlap: nat): map<Id, Overlap> {
    map l | l in s.overlaps && (s.overlaps[l].key != k || (s.overlaps[l].expires > s.now && overlap != 0)) ::
        s.overlaps[l]
  }

  /** LEAST ignores a null. */
  function Until(s: State, k: Key, overlap: nat): Time {
    if k.expires.Some? && k.expires.value < s.now + overlap then k.expires.value else s.now + overlap
  }

  predicate MayRotate(s: State, k: Id, overlap: nat) {
    overlap <= DAY && (overlap > 0 ==> |OverlapsOf(Kept(s, k, overlap), k)| < MAX_OVERLAPS)
  }

  function Rotating(s: State, k: Id, overlap: nat): (State, Reply)
    requires k in s.keys
  {
    var key := s.keys[k];
    var kept := Kept(s, k, overlap);
    var key' := key.(limitLookup := Some(if key.limitLookup.Some? then key.limitLookup.value else key.lookup),
      lookup := s.next, etag := s.next + 1);
    (s.(next := s.next + 2, keys := s.keys[k := key'],
        overlaps := if overlap > 0 then kept[key.lookup := Overlap(k, Until(s, key, overlap))] else kept),
     Rotated(k, s.next + 1, s.next, if overlap > 0 then Some(Until(s, key, overlap)) else None))
  }

  /** Whether the operation's own preconditions hold. */
  predicate Applicable(s: State, f: Fingerprint) {
    match f.op
    case Create(_) => true
    case Rotate(k, overlap) => k in s.keys && f.ifMatch == Some(s.keys[k].etag) && !s.keys[k].revoked
      && MayRotate(s, k, overlap)
    case Revoke(k) => k in s.keys && f.ifMatch == Some(s.keys[k].etag) && !s.keys[k].revoked
  }

  /** The operation's own effect. */
  function Effect(s: State, f: Fingerprint): (State, Reply)
    requires Applicable(s, f)
  {
    match f.op
    case Create(expires) =>
      (s.(next := s.next + 3, keys := s.keys[s.next := Key(s.next + 1, s.next + 2, None, expires, false)]),
        Created(s.next, s.next + 1, s.next + 2))
    case Rotate(k, overlap) => Rotating(s, k, overlap)
    case Revoke(k) =>
      (s.(next := s.next + 1, keys := s.keys[k := s.keys[k].(revoked := true, etag := s.next)]), Revoked(k, s.next))
  }

  /** Whether the row that the request names exists. */
  predicate Known(s: State, op: Operation) {
    op.Create? || op.key in s.keys
  }

  /** Whether a request takes effect, rather than being replayed or refused. */
  predicate Takes(s: State, slot: (Id, string), f: Fingerprint) {
    Known(s, f.op) && Replayed(s, slot, f).None? && Applicable(s, f)
  }

  /** A mutation under an Idempotency-Key. */
  function Mutated(s: State, slot: (Id, string), f: Fingerprint): (State, Reply) {
    if !Known(s, f.op) then (s, Refused)
    else if Replayed(s, slot, f).Some? then (s, Replayed(s, slot, f).value)
    else if !Applicable(s, f) then (s, Refused)
    else
      var (t, y) := Effect(s, f);
      (Completed(t, slot, f, y), y)
  }

  function Step(s: State, r: Request): (State, Reply) {
    match r
    case Mutate(actor, idempotency, f) => Mutated(s, (actor, idempotency), f)
    case Update(k, ifMatch, expires) =>
      if k !in s.keys || ifMatch != Some(s.keys[k].etag) || s.keys[k].revoked then (s, Refused)
      else (s.(next := s.next + 1, keys := s.keys[k := s.keys[k].(expires := expires, etag := s.next)]),
        Updated(k, s.next))
    case SweepSecrets(gone) =>
      var over := set x | x in gone && x in s.secrets && s.secrets[x].expires <= s.now;
      (s.(secrets := s.secrets - over, replays := map k | k in s.replays && s.replays[k].secret !in over ::
          s.replays[k]), Done)
    case SweepOverlaps(gone) =>
      (s.(overlaps := map l | l in s.overlaps && !(l in gone && s.overlaps[l].expires <= s.now) :: s.overlaps[l]), Done)
    case Wait(until) => (s.(now := if until > s.now then until else s.now), Done)
  }

  function After(s: State, run: seq<Request>): State
    decreases |run|
  {
    if run == [] then s else After(Step(s, run[0]).0, run[1..])
  }

  /** When a key's own secret, and a replaced one, are accepted (keys.go:170). */
  predicate Works(s: State, k: Id, l: Id) {
    && k in s.keys && !s.keys[k].revoked
    && (s.keys[k].expires.Some? ==> s.keys[k].expires.value > s.now)
    && (s.keys[k].lookup == l || (l in s.overlaps && s.overlaps[l].key == k && s.overlaps[l].expires > s.now))
  }

  /** COALESCE(limit_lookup_id, lookup_id). */
  function LimiterIdentity(k: Key): Id {
    if k.limitLookup.Some? then k.limitLookup.value else k.lookup
  }

  // Invariant.

  predicate KeyIds(next: Id, keys: map<Id, Key>) {
    && (forall k :: k in keys ==> k < next && keys[k].etag < next && keys[k].lookup < next)
    && (forall j, k :: j in keys && k in keys && keys[j].lookup == keys[k].lookup ==> j == k)
  }

  /** A replaced secret is one of some key, and no key's own. */
  predicate Replaced(next: Id, keys: map<Id, Key>, overlaps: map<Id, Overlap>) {
    && (forall l :: l in overlaps ==> l < next && overlaps[l].key in keys)
    && (forall k :: k in keys ==> keys[k].lookup !in overlaps)
  }

  ghost predicate Few(overlaps: map<Id, Overlap>) {
    forall k :: |OverlapsOf(overlaps, k)| <= MAX_OVERLAPS
  }

  /** Every replay has its stored reply, which ends when it does. */
  predicate Answerable(next: Id, replays: map<(Id, string), Replay>, secrets: map<Id, Stored>) {
    && (forall x :: x in secrets ==> x < next)
    && (forall r :: r in replays ==>
         replays[r].secret in secrets && secrets[replays[r].secret].expires == replays[r].expires)
  }

  ghost predicate Inv(s: State) {
    && KeyIds(s.next, s.keys) && Replaced(s.next, s.keys, s.overlaps) && Few(s.overlaps)
       && Answerable(s.next, s.replays, s.secrets)
  }

  lemma InitHasInv()
    ensures Inv(Init())
  {
    forall k ensures OverlapsOf(Init().overlaps, k) == {} {
    }
  }

  lemma FewerOverlaps(a: map<Id, Overlap>, b: map<Id, Overlap>)
    requires Few(a) && forall l :: l in b ==> l in a && b[l] == a[l]
    ensures Few(b)
  {
    forall k ensures |OverlapsOf(b, k)| <= MAX_OVERLAPS {
      SubsetSize(OverlapsOf(b, k), OverlapsOf(a, k));
    }
  }

  lemma OneMoreOverlap(a: map<Id, Overlap>, l: Id, o: Overlap)
    requires Few(a) && l !in a && |OverlapsOf(a, o.key)| < MAX_OVERLAPS
    ensures Few(a[l := o])
  {
    var b := a[l := o];
    forall k ensures |OverlapsOf(b, k)| <= MAX_OVERLAPS {
      if k == o.key {
        assert OverlapsOf(b, k) == OverlapsOf(a, k) + {l};
      } else {
        assert OverlapsOf(b, k) == OverlapsOf(a, k);
      }
    }
  }

  lemma RotationKeepsFew(s: State, k: Id, overlap: nat)
    requires Few(s.overlaps) && Replaced(s.next, s.keys, s.overlaps) && k in s.keys && MayRotate(s, k, overlap)
    ensures Few(Rotating(s, k, overlap).0.overlaps)
  {
    hide Few, OverlapsOf;
    var kept := Kept(s, k, overlap);
    FewerOverlaps(s.overlaps, kept);
    if overlap > 0 {
      OneMoreOverlap(kept, s.keys[k].lookup, Overlap(k, Until(s, s.keys[k], overlap)));
    }
  }

  lemma RotationKeepsReplaced(s: State, k: Id, overlap: nat)
    requires KeyIds(s.next, s.keys) && Replaced(s.next, s.keys, s.overlaps) && k in s.keys
    ensures var t := Rotating(s, k, overlap).0; Replaced(t.next, t.keys, t.overlaps)
  {
    hide Until;
  }

  lemma RotationKeepsKeyIds(s: State, k: Id, overlap: nat)
    requires KeyIds(s.next, s.keys) && k in s.keys
    ensures var t := Rotating(s, k, overlap).0; KeyIds(t.next, t.keys)
  {
    hide Until, Kept;
  }

  lemma AnswerableMovesOn(next: Id, replays: map<(Id, string), Replay>, secrets: map<Id, Stored>)
    requires Answerable(next, replays, secrets)
    ensures Answerable(next + 2, replays, secrets)
  {
  }

  lemma RotationKeepsInv(s: State, k: Id, overlap: nat)
    requires Inv(s) && k in s.keys && MayRotate(s, k, overlap)
    ensures Inv(Rotating(s, k, overlap).0)
  {
    hide Few, KeyIds, Replaced, Answerable, MayRotate, Kept;
    RotationKeepsFew(s, k, overlap);
    RotationKeepsReplaced(s, k, overlap);
    RotationKeepsKeyIds(s, k, overlap);
    AnswerableMovesOn(s.next, s.replays, s.secrets);
  }

  lemma CreationKeepsInv(s: State, expires: Option<Time>)
    requires Inv(s)
    ensures Inv(s.(next := s.next + 3, keys := s.keys[s.next := Key(s.next + 1, s.next + 2, None, expires, false)]))
  {
    hide Few;
  }

  /** A write that keeps the key's secret, under a fresh entity tag. */
  lemma KeyWriteKeepsInv(s: State, k: Id, key: Key)
    requires Inv(s) && k in s.keys && key.lookup == s.keys[k].lookup && key.etag == s.next
    ensures Inv(s.(next := s.next + 1, keys := s.keys[k := key]))
  {
    hide Few;
  }

  lemma EffectKeepsInv(s: State, f: Fingerprint)
    requires Inv(s) && Applicable(s, f)
    ensures Inv(Effect(s, f).0)
  {
    hide Inv, MayRotate, Rotating;
    match f.op
    case Create(expires) => CreationKeepsInv(s, expires);
    case Rotate(k, overlap) => RotationKeepsInv(s, k, overlap);
    case Revoke(k) => KeyWriteKeepsInv(s, k, s.keys[k].(revoked := true, etag := s.next));
  }

  lemma CompletionKeepsInv(s: State, slot: (Id, string), f: Fingerprint, y: Reply)
    requires Inv(s)
    ensures Inv(Completed(s, slot, f, y))
  {
    hide Few;
  }

  lemma StepKeepsInv(s: State, r: Request)
    requires Inv(s)
    ensures Inv(Step(s, r).0)
  {
    hide Few, Applicable, Effect, Completed;
    match r
    case Mutate(actor, idempotency, f) =>
      if Takes(s, (actor, idempotency), f) {
        EffectKeepsInv(s, f);
        CompletionKeepsInv(Effect(s, f).0, (actor, idempotency), f, Effect(s, f).1);
      }
    case Update(k, ifMatch, expires) =>
      if k in s.keys {
        KeyWriteKeepsInv(s, k, s.keys[k].(expires := expires, etag := s.next));
      }
    case SweepOverlaps(gone) => FewerOverlaps(s.overlaps, Step(s, r).0.overlaps);
    case _ =>
  }

  lemma {:induction false} RunKeepsInv(s: State, run: seq<Request>)
    requires Inv(s)
    ensures Inv(After(s, run))
    decreases |run|
  {
    hide Inv, Step;
    if run != [] {
      StepKeepsInv(s, run[0]);
      RunKeepsInv(Step(s, run[0]).0, run[1..]);
    }
  }

  /** In every reachable state a key has at most eight overlap rows, and every
      replay row still has its stored reply. */
  lemma EveryRunIsBounded(run: seq<Request>, k: Id)
    ensures var s := After(Init(), run);
            && |OverlapsOf(s.overlaps, k)| <= 8
            && forall r :: r in s.replays ==>
                 s.replays[r].secret in s.secrets && s.secrets[s.replays[r].secret].expires == s.replays[r].expires
  {
    hide Step, KeyIds, Replaced;
    assert Inv(Init()) by { InitHasInv(); }
    RunKeepsInv(Init(), run);
  }

  // Idempotent mutations.

  /** Until `until`, the slot holds this request and this reply. */
  predicate Holds(s: State, slot: (Id, string), f: Fingerprint, y: Reply, until: Time) {
    s.now >= until ||
    (slot in s.replays && s.replays[slot].fingerprint == f && s.replays[slot].expires == until
     && s.replays[slot].secret in s.secrets && s.secrets[s.replays[slot].secret] == Stored(y, until))
  }

  lemma TakingHolds(s: State, slot: (Id, string), f: Fingerprint)
    requires Takes(s, slot, f)
    ensures var (t, y) := Mutated(s, slot, f); Holds(t, slot, f, y, s.now + DAY) && y == Effect(s, f).1
  {
    hide Replayed, Applicable, Rotating;
    EffectKeepsClock(s, f);
  }

  lemma EffectKeepsClock(s: State, f: Fingerprint)
    requires Applicable(s, f)
    ensures var t := Effect(s, f).0;
            t.now == s.now && t.next > s.next && t.replays == s.replays && t.secrets == s.secrets
  {
  }

  lemma MutationKeepsHolds(s: State, other: (Id, string), g: Fingerprint, slot: (Id, string), f: Fingerprint,
      y: Reply, until: Time)
    requires Answerable(s.next, s.replays, s.secrets) && Holds(s, slot, f, y, until)
    ensures Holds(Mutated(s, other, g).0, slot, f, y, until)
  {
    hide Applicable, Effect;
    if Takes(s, other, g) {
      EffectKeepsClock(s, g);
      if s.now < until {
        assert other != slot;
      }
    }
  }

  lemma StepKeepsHolds(s: State, r: Request, slot: (Id, string), f: Fingerprint, y: Reply, until: Time)
    requires Answerable(s.next, s.replays, s.secrets) && Holds(s, slot, f, y, until)
    ensures Holds(Step(s, r).0, slot, f, y, until)
  {
    hide Mutated;
    if r.Mutate? {
      MutationKeepsHolds(s, (r.actor, r.idempotency), r.fingerprint, slot, f, y, until);
    }
  }

  lemma {:induction false} RunKeepsHolds(s: State, run: seq<Request>, slot: (Id, string), f: Fingerprint, y: Reply,
      until: Time)
    requires Inv(s) && Holds(s, slot, f, y, until)
    ensures Holds(After(s, run), slot, f, y, until)
    decreases |run|
  {
    hide Step, Holds, KeyIds, Replaced, Few, Answerable;
    if run != [] {
      StepKeepsInv(s, run[0]);
      StepKeepsHolds(s, run[0], slot, f, y, until);
      RunKeepsHolds(Step(s, run[0]).0, run[1..], slot, f, y, until);
    }
  }

  /** From a commit until its replay expires, whatever else runs, a request with
      the same actor and Idempotency-Key changes nothing: the same request gets
      the identical reply, and any other request is refused. */
  lemma ReplayAnswersWithoutEffect(s: State, slot: (Id, string), f: Fingerprint, run: seq<Request>, g: Fingerprint)
    requires Inv(s) && Takes(s, slot, f)
    requires After(Mutated(s, slot, f).0, run).now < s.now + DAY
    ensures var later := After(Mutated(s, slot, f).0, run);
            && Mutated(later, slot, g).0 == later
            && (g == f ==> Mutated(later, slot, g).1 == Mutated(s, slot, f).1)
            && (g != f ==> Mutated(later, slot, g).1 == Refused)
  {
    hide Step, Applicable, Effect, KeyIds, Replaced, Few, Answerable;
    var (t, y) := Mutated(s, slot, f);
    StepKeepsInv(s, Mutate(slot.0, slot.1, f));
    StepIsMutated(s, slot, f);
    TakingHolds(s, slot, f);
    RunKeepsHolds(t, run, slot, f, y, s.now + DAY);
    TakenSlotIsLong(s, slot, f);
    KnownStep(s, Mutate(slot.0, slot.1, f), f.op);
    KnownStaysKnown(t, run, f.op);
  }

  lemma StepIsMutated(s: State, slot: (Id, string), f: Fingerprint)
    ensures Step(s, Mutate(slot.0, slot.1, f)) == Mutated(s, slot, f)
  {
  }

  lemma TakenSlotIsLong(s: State, slot: (Id, string), f: Fingerprint)
    requires Takes(s, slot, f)
    ensures 1 <= |slot.1| <= 200
  {
  }

  /** A key once made is never deleted, so the key row stays known. */
  lemma {:induction false} KnownStaysKnown(s: State, run: seq<Request>, op: Operation)
    requires Known(s, op)
    ensures Known(After(s, run), op)
    decreases |run|
  {
    if run != [] {
      KnownStep(s, run[0], op);
      hide Step;
      KnownStaysKnown(Step(s, run[0]).0, run[1..], op);
    }
  }

  lemma KnownStep(s: State, r: Request, op: Operation)
    requires Known(s, op)
    ensures Known(Step(s, r).0, op)
  {
    hide Replayed, MayRotate, Kept;
  }

  // One If-Match, one effect.

  predicate Changes(s: State, r: Request, k: Id, tag: Id) {
    && r.Mutate? && !r.fingerprint.op.Create? && r.fingerprint.op.key == k && r.fingerprint.ifMatch == Some(tag)
    && Takes(s, (r.actor, r.idempotency), r.fingerprint)
  }

  /** How often a run rotates or revokes a key on the precondition `tag`. */
  function Effects(s: State, run: seq<Request>, k: Id, tag: Id): nat
    decreases |run|
  {
    if run == [] then 0
    else (if Changes(s, run[0], k, tag) then 1 else 0) + Effects(Step(s, run[0]).0, run[1..], k, tag)
  }

  predicate Passed(s: State, k: Id, tag: Id) {
    k in s.keys && tag < s.keys[k].etag < s.next
  }

  lemma StepKeepsPassed(s: State, r: Request, k: Id, tag: Id)
    requires Passed(s, k, tag)
    ensures Passed(Step(s, r).0, k, tag) && !Changes(s, r, k, tag)
  {
    hide Replayed, MayRotate, Kept;
  }

  lemma ChangePasses(s: State, r: Request, k: Id, tag: Id)
    requires KeyIds(s.next, s.keys) && Changes(s, r, k, tag)
    ensures Passed(Step(s, r).0, k, tag)
  {
    hide Replayed, MayRotate, Kept;
  }

  lemma {:induction false} PassedHasNoEffect(s: State, run: seq<Request>, k: Id, tag: Id)
    requires Passed(s, k, tag)
    ensures Effects(s, run, k, tag) == 0
    decreases |run|
  {
    hide Step, Passed, Changes;
    if run != [] {
      StepKeepsPassed(s, run[0], k, tag);
      PassedHasNoEffect(Step(s, run[0]).0, run[1..], k, tag);
    }
  }

  /** A rotation or revocation with one If-Match takes effect at most once in a
      whole run, even after its replay expired. */
  lemma {:induction false} OneEffectPerTag(s: State, run: seq<Request>, k: Id, tag: Id)
    requires Inv(s)
    ensures Effects(s, run, k, tag) <= 1
    decreases |run|
  {
    hide Step, Passed, Changes, KeyIds, Replaced, Few, Answerable;
    if run != [] {
      StepKeepsInv(s, run[0]);
      if Changes(s, run[0], k, tag) {
        ChangePasses(s, run[0], k, tag);
        PassedHasNoEffect(Step(s, run[0]).0, run[1..], k, tag);
      } else {
        OneEffectPerTag(Step(s, run[0]).0, run[1..], k, tag);
      }
    }
  }

  // Replaced secrets.

  /** Secret `l` was replaced and will not be accepted at or after `until`. */
  predicate Ending(s: State, l: Id, until: Time) {
    && l < s.next
    && (forall k :: k in s.keys ==> s.keys[k].lookup != l)
    && (l in s.overlaps ==> s.overlaps[l].expires <= until)
  }

  lemma StepKeepsEnding(s: State, r: Request, l: Id, until: Time)
    requires Ending(s, l, until)
    ensures Ending(Step(s, r).0, l, until)
  {
    hide Replayed, MayRotate, Until;
  }

  lemma {:induction false} RunKeepsEnding(s: State, run: seq<Request>, l: Id, until: Time)
    requires Ending(s, l, until)
    ensures Ending(After(s, run), l, until)
    decreases |run|
  {
    hide Step, Ending;
    if run != [] {
      StepKeepsEnding(s, run[0], l, until);
      RunKeepsEnding(Step(s, run[0]).0, run[1..], l, until);
    }
  }

  lemma RotationEnds(s: State, k: Id, overlap: nat)
    requires Inv(s) && k in s.keys && MayRotate(s, k, overlap)
    ensures Ending(Rotating(s, k, overlap).0, s.keys[k].lookup, s.now + overlap)
    ensures s.keys[k].expires.Some? && overlap > 0 ==>
              Rotating(s, k, overlap).0.overlaps[s.keys[k].lookup].expires <= s.keys[k].expires.value
  {
    hide Few, Answerable;
  }

  lemma EndingSurvivesCompletion(s: State, slot: (Id, string), f: Fingerprint, y: Reply, l: Id, until: Time)
    requires Ending(s, l, until)
    ensures Ending(Completed(s, slot, f, y), l, until)
  {
  }

  /** After a rotation with `overlap` seconds at `s.now`, nothing that runs later
      lets the replaced secret work for longer, at most a day. */
  lemma ReplacedSecretEnds(s: State, slot: (Id, string), f: Fingerprint, run: seq<Request>, k: Id)
    requires Inv(s) && f.op.Rotate? && Takes(s, slot, f)
    ensures f.op.overlap <= DAY
    ensures var later := After(Mutated(s, slot, f).0, run);
            Works(later, k, s.keys[f.op.key].lookup) ==> later.now < s.now + f.op.overlap
  {
    hide Step, KeyIds, Replaced, Few, Answerable, Rotating, Replayed, Completed;
    var l := s.keys[f.op.key].lookup;
    RotationEnds(s, f.op.key, f.op.overlap);
    var (t, y) := Effect(s, f);
    EndingSurvivesCompletion(t, slot, f, y, l, s.now + f.op.overlap);
    RunKeepsEnding(Completed(t, slot, f, y), run, l, s.now + f.op.overlap);
  }

  /** A rotation without overlap leaves exactly one working secret, the new one,
      unless the key itself has expired. */
  lemma ZeroOverlapLeavesOne(s: State, slot: (Id, string), f: Fingerprint, l: Id)
    requires Inv(s) && f.op.Rotate? && f.op.overlap == 0 && Takes(s, slot, f)
    ensures var (t, y) := Mutated(s, slot, f);
            Works(t, f.op.key, l) <==>
              l == y.lookup && (s.keys[f.op.key].expires.Some? ==> s.keys[f.op.key].expires.value > s.now)
  {
    hide KeyIds, Few, Answerable, MayRotate, Replayed;
  }

  // The limiter keeps counting for the key, whatever its secret.

  lemma StepKeepsLimiter(s: State, r: Request, k: Id)
    requires k in s.keys && k < s.next
    ensures var t := Step(s, r).0; k in t.keys && k < t.next && LimiterIdentity(t.keys[k]) == LimiterIdentity(s.keys[k])
  {
    hide Replayed, MayRotate, Kept;
  }

  lemma {:induction false} LimiterIdentityIsFixed(s: State, run: seq<Request>, k: Id)
    requires k in s.keys && k < s.next
    ensures k in After(s, run).keys && LimiterIdentity(After(s, run).keys[k]) == LimiterIdentity(s.keys[k])
    decreases |run|
  {
    if run != [] {
      StepKeepsLimiter(s, run[0], k);
      hide Step, LimiterIdentity;
      LimiterIdentityIsFixed(Step(s, run[0]).0, run[1..], k);
    }
  }

  // What each request does to the secrets that work.

  /** The key is there, not revoked and not expired. */
  predicate Usable(s: State, k: Id) {
    k in s.keys && !s.keys[k].revoked && (s.keys[k].expires.Some? ==> s.keys[k].expires.value > s.now)
  }

  /** A mutation takes effect if and only if its Idempotency-Key is well formed
      and holds no unexpired replay, and, unless it creates, the key is there
      under the tag given and not revoked; a rotation also needs an overlap of at
      most a day and, if it has one, fewer than eight unexpired overlaps. */
  lemma TakesExactlyWhen(s: State, slot: (Id, string), f: Fingerprint)
    ensures Takes(s, slot, f) <==>
              && 1 <= |slot.1| <= 200 && (slot in s.replays ==> s.replays[slot].expires <= s.now)
              && (!f.op.Create? ==>
                    f.op.key in s.keys && f.ifMatch == Some(s.keys[f.op.key].etag) && !s.keys[f.op.key].revoked)
              && (f.op.Rotate? ==>
                    f.op.overlap <= 86400 && (f.op.overlap > 0 ==> |LiveOverlaps(s, f.op.key)| < 8))
  {
    if f.op.Rotate? && f.op.overlap > 0 {
      assert OverlapsOf(Kept(s, f.op.key, f.op.overlap), f.op.key) == LiveOverlaps(s, f.op.key);
    }
  }

  function LiveOverlaps(s: State, k: Id): set<Id> {
    set l | l in s.overlaps && s.overlaps[l].key == k && s.overlaps[l].expires > s.now
  }

  /** After a rotation exactly these secrets of a usable key work: the new one
      and, with an overlap, the one it replaced and those replaced before that
      had not ended. */
  lemma RotationWorksExactly(s: State, slot: (Id, string), f: Fingerprint, l: Id)
    requires Inv(s) && f.op.Rotate? && Takes(s, slot, f)
    ensures var (t, y) := Mutated(s, slot, f); var k := f.op.key;
            && y.Rotated? && y.key == k && y.etag == t.keys[k].etag && y.lookup == t.keys[k].lookup >= s.next
            && (Works(t, k, l) <==>
                  Usable(s, k) && (l == y.lookup
                    || (f.op.overlap > 0 && (l == s.keys[k].lookup || l in LiveOverlaps(s, k)))))
  {
    hide KeyIds, Few, Answerable, MayRotate, Replayed;
  }

  /** Left alone, a replaced secret works exactly until its overlap or its key
      ends, and the reply says when. */
  lemma OverlapLastsExactly(s: State, slot: (Id, string), f: Fingerprint, at: Time)
    requires Inv(s) && f.op.Rotate? && f.op.overlap > 0 && Takes(s, slot, f) && at >= s.now
    ensures var (t, y) := Mutated(s, slot, f); var key := s.keys[f.op.key];
            && (Works(Step(t, Wait(at)).0, f.op.key, key.lookup) <==>
                  at < s.now + f.op.overlap && (key.expires.Some? ==> at < key.expires.value))
            && y.until == Some(if key.expires.Some? && key.expires.value < s.now + f.op.overlap then key.expires.value
                               else s.now + f.op.overlap)
  {
    hide Few, Answerable, MayRotate, Replayed;
  }

  /** The key is revoked, for good. */
  predicate Dead(s: State, k: Id) {
    k < s.next && k in s.keys && s.keys[k].revoked
  }

  lemma StepKeepsDead(s: State, r: Request, k: Id)
    requires Dead(s, k)
    ensures Dead(Step(s, r).0, k)
  {
    hide Replayed, MayRotate, Kept;
  }

  lemma {:induction false} RunKeepsDead(s: State, run: seq<Request>, k: Id)
    requires Dead(s, k)
    ensures Dead(After(s, run), k)
    decreases |run|
  {
    hide Step, Dead;
    if run != [] {
      StepKeepsDead(s, run[0], k);
      RunKeepsDead(Step(s, run[0]).0, run[1..], k);
    }
  }

  lemma RevocationMeans(s: State, slot: (Id, string), f: Fingerprint)
    requires KeyIds(s.next, s.keys) && f.op.Revoke? && Takes(s, slot, f)
    ensures var (t, y) := Mutated(s, slot, f); var k := f.op.key;
            && Dead(t, k) && y == Revoked(k, t.keys[k].etag) && t.keys[k].etag >= s.next
            && t.keys == s.keys[k := s.keys[k].(revoked := true, etag := t.keys[k].etag)] && t.overlaps == s.overlaps
  {
    hide Replayed;
  }

  /** After a revocation no secret of the key works, whatever runs later. The
      reply names the key's new tag; other keys and all overlaps are as before. */
  lemma RevokedNeverWorks(s: State, slot: (Id, string), f: Fingerprint, run: seq<Request>, l: Id)
    requires Inv(s) && f.op.Revoke? && Takes(s, slot, f)
    ensures var (t, y) := Mutated(s, slot, f); var k := f.op.key;
            && !Works(After(t, run), k, l)
            && k in t.keys && y == Revoked(k, t.keys[k].etag) && t.keys[k].etag >= s.next
            && t.keys - {k} == s.keys - {k} && t.overlaps == s.overlaps
  {
    hide Few, Replaced, Answerable, Step, Mutated, Takes;
    var t := Mutated(s, slot, f).0;
    RevocationMeans(s, slot, f);
    RunKeepsDead(t, run, f.op.key);
  }

  /** A new key works by its own secret alone until it expires. */
  lemma CreatedWorksExactly(s: State, slot: (Id, string), f: Fingerprint, l: Id)
    requires Inv(s) && f.op.Create? && Takes(s, slot, f)
    ensures var (t, y) := Mutated(s, slot, f);
            && y.Created? && y.key !in s.keys && y.key in t.keys && y.etag == t.keys[y.key].etag
            && (Works(t, y.key, l) <==> l == y.lookup && (f.op.expires.Some? ==> f.op.expires.value > s.now))
            && t.keys - {y.key} == s.keys && t.overlaps == s.overlaps
  {
    hide Few, Answerable, Replayed;
  }

  /** An update takes effect if and only if the key is there under the tag given
      and not revoked, and then moves its expiry and nothing else that counts. */
  lemma UpdateMeans(s: State, k: Id, ifMatch: Option<Id>, expires: Option<Time>, l: Id)
    requires Inv(s)
    ensures var (t, y) := Step(s, Update(k, ifMatch, expires));
            && (y.Updated? <==> k in s.keys && ifMatch == Some(s.keys[k].etag) && !s.keys[k].revoked)
            && (y.Refused? <==> !y.Updated?) && (y.Refused? ==> t == s)
            && (y.Updated? ==>
                  && t.keys[k].etag == y.etag >= s.next && y.key == k && t.keys - {k} == s.keys - {k}
                  && t.overlaps == s.overlaps
                  && (Works(t, k, l) <==>
                        (expires.Some? ==> expires.value > s.now)
                          && (l == s.keys[k].lookup || l in LiveOverlaps(s, k))))
  {
    hide Few, Answerable, KeyIds;
  }

  /** Which key a request is about. */
  predicate About(r: Request, k: Id) {
    (r.Mutate? && !r.fingerprint.op.Create? && r.fingerprint.op.key == k) || (r.Update? && r.key == k)
  }

  /** No request changes which secrets of another key work, at the same time. */
  lemma OtherKeysAreLeftAlone(s: State, r: Request, k: Id, l: Id)
    requires Inv(s) && k in s.keys && !About(r, k) && !r.Wait?
    ensures Works(Step(s, r).0, k, l) == Works(s, k, l)
  {
    hide Few, Answerable, Replayed, MayRotate;
  }

  /** The handlers as they run: statements in a transaction, and a commit. */
  class Server {
    var db: State

    constructor ()
      ensures db == Init()
    {
      db := Init();
    }

    /** Replay. */
    method FindReplay(tx: State, slot: (Id, string), f: Fingerprint) returns (answer: Option<Reply>)
      ensures answer == Replayed(tx, slot, f)
    {
      if |slot.1| < 1 || |slot.1| > 200 { return Some(Refused); }
      if slot !in tx.replays || tx.replays[slot].expires <= tx.now { return None; }
      var row := tx.replays[slot];
      if row.fingerprint != f { return Some(Refused); }
      if row.secret !in tx.secrets { return Some(Refused); }
      return Some(tx.secrets[row.secret].reply);
    }

    /** transitionKey. */
    method TransitionKey(slot: (Id, string), f: Fingerprint) returns (y: Reply)
      requires Inv(db) && !f.op.Create?
      modifies this
      ensures (db, y) == Mutated(old(db), slot, f) && Inv(db)
    {
      hide Few, KeyIds, Replaced, Answerable;
      StepKeepsInv(db, Mutate(slot.0, slot.1, f));
      StepIsMutated(db, slot, f);
      var tx, k := db, f.op.key;
      if k !in tx.keys { return Refused; }
      var answer := FindReplay(tx, slot, f);
      if answer.Some? { return answer.value; }
      var key := tx.keys[k];
      if f.ifMatch != Some(key.etag) || key.revoked { return Refused; }
      if f.op.Rotate? {
        var overlap := f.op.overlap;
        if overlap > DAY { return Refused; }
        tx := tx.(overlaps := Kept(tx, k, overlap));
        var until: Option<Time> := None;
        if overlap > 0 {
          if |OverlapsOf(tx.overlaps, k)| >= MAX_OVERLAPS { return Refused; }
          until := Some(Until(tx, key, overlap));
          tx := tx.(overlaps := tx.overlaps[key.lookup := Overlap(k, until.value)]);
        }
        var lookup, etag := tx.next, tx.next + 1;
        key := key.(limitLookup := Some(LimiterIdentity(key)), lookup := lookup, etag := etag);
        tx := tx.(next := tx.next + 2, keys := tx.keys[k := key]);
        y := Rotated(k, etag, lookup, until);
      } else {
        var etag := tx.next;
        tx := tx.(next := tx.next + 1, keys := tx.keys[k := key.(revoked := true, etag := etag)]);
        y := Revoked(k, etag);
      }
      db := Completed(tx, slot, f, y);
    }
  }
}
