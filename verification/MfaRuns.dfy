/** What holds of whole runs of the MFA handlers. */
module MfaRuns {
  import opened Common
  import opened Kernel
  import opened Mfa
  import opened MfaInvariants
  import opened MfaSteps

  /** The tables after a sequence of requests, in whatever order their
      transactions took the lock. */
  function After(t: Tables, run: seq<Request>): Tables
    decreases |run|
  {
    if run == [] then t else After(Step(t, run[0]).0, run[1..])
  }

  /** An installation before its first user. */
  predicate Empty(t: Tables) {
    t.users == map[] && t.sessions == map[] && t.factors == map[] && t.codes == map[] && t.challenges == map[]
      && t.secrets == map[]
  }

  lemma EmptyHasInv(t: Tables)
    requires Empty(t)
    ensures Inv(t)
  {
    forall u ensures FactorsOf(t.factors, u) == {} && ChallengesOf(t.challenges, u) == {}
      && SessionsOf(t.sessions, u) == {} {
    }
  }

  lemma {:induction false} RunKeepsInv(t: Tables, run: seq<Request>)
    requires Inv(t)
    ensures Inv(After(t, run))
    decreases |run|
  {
    hide Inv, Step;
    if run != [] {
      StepKeepsInv(t, run[0]);
      RunKeepsInv(Step(t, run[0]).0, run[1..]);
    }
  }

  /** In every reachable state a user has at most one TOTP factor, ten factors,
      eight challenges and twenty sessions. */
  lemma EveryRunKeepsLimits(t: Tables, run: seq<Request>, u: Id)
    requires Empty(t)
    ensures var t' := After(t, run);
            && (forall f, g | f in FactorsOf(t'.factors, u) && g in FactorsOf(t'.factors, u) ::
                  t'.factors[f].kind.Totp? && t'.factors[g].kind.Totp? ==> f == g)
            && |FactorsOf(t'.factors, u)| <= 10
            && |ChallengesOf(t'.challenges, u)| <= 8
            && |SessionsOf(t'.sessions, u)| <= 20
  {
    hide Step, Ids, Sealed, Current, Proven;
    EmptyHasInv(t);
    RunKeepsInv(t, run);
  }

  /** In every reachable state recovery codes and verified local sessions belong
      to users with a factor, and every factor's secret can still be read. */
  lemma EveryRunKeepsFactorsBehindProofs(t: Tables, run: seq<Request>)
    requires Empty(t)
    ensures var t' := After(t, run);
            && (forall d :: d in t'.codes ==> FactorsOf(t'.factors, t'.codes[d]) != {})
            && (forall s :: s in t'.sessions && t'.sessions[s].signIn.Local? && t'.sessions[s].mfa ==>
                  FactorsOf(t'.factors, t'.sessions[s].user) != {})
            && (forall f :: f in t'.factors ==> Readable(t', f))
  {
    hide Step, Ids, Current, Limited, ChallengesBounded, SessionsBounded, FactorsOf;
    EmptyHasInv(t);
    RunKeepsInv(t, run);
  }

  /** An accepted enrolment of a TOTP factor adds the user's only one, although
      no handler looks for another at that point. */
  lemma AcceptedTotpIsTheFirst(t: Tables, run: seq<Request>, c: Id, proof: Proof, caller: Option<Id>)
    requires Empty(t)
    ensures var t' := After(t, run);
            c in t'.challenges && t'.challenges[c].purpose.EnrollTotp? && Verify(t', c, proof, caller).1.Enrolled? ==>
              !HasTotp(t'.factors, t'.challenges[c].user)
  {
    hide Step, Ids, Sealed, Limited, ChallengesBounded, SessionsBounded, FactorsOf, Proven, HasTotp, NewSession,
      Activated, Spend;
    EmptyHasInv(t);
    RunKeepsInv(t, run);
    var t' := After(t, run);
    if Loadable(t', c, caller) {
      assert IsCurrent(t'.users, t'.challenges[c]);
    }
  }

  // What a step leaves behind: nothing that was used up comes back.

  /** Identifiers are never reused, a challenge changes only by attempts
      counted, and a factor appears only from a pending enrolment or a new
      identifier and never counts back. */
  predicate ChallengesFollow(next: Id, before: map<Id, Challenge>, after: map<Id, Challenge>) {
    forall c :: c in after ==>
      if c in before then after[c] == before[c].(attempts := after[c].attempts)
        && after[c].attempts >= before[c].attempts
      else c >= next && (after[c].secret.Some? ==> after[c].secret.value >= next)
  }

  predicate CodesFollow(next: Id, before: map<Id, Id>, after: map<Id, Id>) {
    forall d :: d in after ==> d in before || d >= next
  }

  predicate Pending(challenges: map<Id, Challenge>, f: Id) {
    exists c :: c in challenges && challenges[c].secret == Some(f)
  }

  predicate FactorsFollow(next: Id, challenges: map<Id, Challenge>, before: map<Id, Factor>, after: map<Id, Factor>) {
    forall f :: f in after ==>
      if f in before then after[f].last >= before[f].last else f >= next || Pending(challenges, f)
  }

  predicate Follows(t: Tables, t': Tables) {
    && t.next <= t'.next && ChallengesFollow(t.next, t.challenges, t'.challenges)
    && CodesFollow(t.next, t.codes, t'.codes) && FactorsFollow(t.next, t.challenges, t.factors, t'.factors)
  }

  /** `t2` differs from `t1` in its sessions, and in lacking challenges. */
  predicate SessionsOnly(t1: Tables, t2: Tables) {
    && t1.next <= t2.next && t2.factors == t1.factors && t2.codes == t1.codes && t2.users == t1.users
    && forall c :: c in t2.challenges ==> c in t1.challenges && t2.challenges[c] == t1.challenges[c]
  }

  lemma NewSessionIsSessionsOnly(t: Tables, u: Id, signIn: Kernel.SignIn, mfa: bool)
    requires u in t.users
    ensures SessionsOnly(t, NewSession(t, u, signIn, mfa))
  {
    hide Surplus;
  }

  lemma SessionsOnlyFollows(t: Tables, t1: Tables, t2: Tables)
    requires Follows(t, t1) && SessionsOnly(t1, t2)
    ensures Follows(t, t2)
  {
  }

  lemma StoreFlowFollows(t: Tables, u: Id, session: Option<Id>, purpose: Purpose, secret: Option<Id>, webauthn: bool,
      t0: Tables)
    requires Ids(t0) && u in t.users && t0.next <= t.next && t.factors == t0.factors && t.codes == t0.codes
    requires forall c :: c in t.challenges ==> c in t0.challenges && t.challenges[c] == t0.challenges[c]
    requires secret.Some? ==> secret.value >= t0.next
    ensures Follows(t0, StoreFlow(t, u, session, purpose, secret, webauthn))
  {
    hide Surplus;
    assert t0.next !in t0.challenges;
  }

  lemma SignInFollows(t: Tables, u: Id, origin: bool)
    requires Ids(t)
    ensures Follows(t, LocalSession(t, u, origin).0)
  {
    hide Ids, FactorsOf, HasTotp, HasKey, HasCode, StoreFlow, NewSession;
    if Usable(t, u) {
      NewSessionIsSessionsOnly(t, u, Local, false);
      StoreFlowFollows(t, u, None, Login, None, HasKey(t.factors, u) && origin, t);
      StoreFlowFollows(t, u, None, Bootstrap, None, HasKey(t.factors, u) && origin, t);
    }
  }

  lemma SessionChallengeFollows(t: Tables, s: Id, purpose: Purpose, origin: bool)
    requires Ids(t)
    ensures Follows(t, SessionChallenge(t, s, purpose, origin).0)
  {
    hide Ids, FactorsOf, HasTotp, HasKey, HasCode, StoreFlow;
    if Authentic(t, s) {
      var u := t.sessions[s].user;
      StoreFlowFollows(t, u, Some(s), purpose, None, HasKey(t.factors, u) && origin, t);
    }
  }

  lemma BeginEnrollmentFollows(t: Tables, who: Enroller, kind: Kind, origin: bool)
    requires Ids(t)
    ensures Follows(t, BeginEnrollment(t, who, kind, origin).0)
  {
    hide Ids, FactorsOf, HasTotp, StoreFlow;
    if MayEnroll(t, who) {
      var u := if who.ByChallenge? then t.challenges[who.c].user else t.sessions[who.s].user;
      var session := if who.ByChallenge? then None else Some(who.s);
      var t1 := if who.ByChallenge? then DropChallenges(t, {who.c}) else t;
      if kind.Totp? {
        StoreFlowFollows(AddSecret(t1, Some(t.now + MFA_TTL)), u, session, EnrollTotp, Some(t.next), false, t);
      } else {
        StoreFlowFollows(t1, u, session, EnrollWebAuthn, None, true, t);
      }
    }
  }

  lemma ReplaceCodesFollows(t: Tables, u: Id)
    ensures CodesFollow(t.next, t.codes, ReplaceCodes(t, u).codes)
  {
  }

  /** What an activation does to each table. */
  lemma ActivatedChanges(t: Tables, c: Id, proof: Proof)
    requires Enrolling(t, c, proof)
    ensures var t' := Activated(t, c, proof);
            && t'.next > t.next && t'.sessions == t.sessions && t'.challenges == t.challenges - {c}
            && var totp := t.challenges[c].purpose.EnrollTotp?;
            && t'.factors == t.factors[NewFactor(t, c) :=
                 Factor(t.challenges[c].user, if totp then Totp else WebAuthn, if totp then proof.counter else 0)]
            && CodesFollow(t.next, t.codes, t'.codes) && t'.users[t.challenges[c].user].mfaRevision >= t.next
  {
    hide FactorsOf, ReplaceCodes;
    var ch := t.challenges[c];
    var totp := ch.purpose.EnrollTotp?;
    var t0 := DropChallenges(t, {c});
    var t1 := if totp then t0 else AddSecret(t0, None);
    var t2 := AddFactor(t1, NewFactor(t, c), ch.user, if totp then Totp else WebAuthn, if totp then proof.counter
      else 0);
    ReplaceCodesFollows(t2, ch.user);
    ReplacedCodesTouchNothingElse(t2, ch.user);
  }

  lemma ReplacedCodesTouchNothingElse(t: Tables, u: Id)
    ensures ReplaceCodes(t, u) == t.(next := t.next + RECOVERY_CODES, codes := ReplaceCodes(t, u).codes)
  {
  }

  lemma ActivateFollows(t: Tables, c: Id, proof: Proof)
    requires Base(t) && Enrolling(t, c, proof)
    ensures Follows(t, Activate(t, c, proof).0)
  {
    hide Current, Limited, ChallengesBounded, SessionsBounded, FactorsOf, NewSession, Activated;
    hide UserIds, SessionIds, CodeIds, SecretIds, ChallengeIds;
    var ch := t.challenges[c];
    var t1 := Activated(t, c, proof);
    ActivatedChanges(t, c, proof);
    assert ch.purpose.EnrollTotp? ==> t.challenges[c].secret == Some(NewFactor(t, c));
    assert Follows(t, t1);
    var t2 := if ch.session.None? then t1 else DropSessions(t1, SessionsOf(t1.sessions, ch.user));
    assert SessionsOnly(t1, t2);
    var signIn := if ch.session.None? then Local else t.sessions[ch.session.value].signIn;
    NewSessionIsSessionsOnly(t2, ch.user, signIn, true);
    SessionsOnlyFollows(t, t1, t2);
    SessionsOnlyFollows(t, t2, NewSession(t2, ch.user, signIn, true));
  }

  lemma SpendFollows(t: Tables, ch: Challenge, proof: Proof, c: Id)
    requires Proves(t, ch, proof) && !ch.purpose.EnrollTotp? && !ch.purpose.EnrollWebAuthn?
    ensures Follows(t, DropChallenges(Spend(t, proof), {c}))
    ensures Spend(t, proof).users == t.users
  {
  }

  lemma VerifyFollows(t: Tables, c: Id, proof: Proof, caller: Option<Id>)
    requires Inv(t)
    ensures Follows(t, Verify(t, c, proof, caller).0)
  {
    hide Base, Proven, FactorsOf, NewSession, Activate, Proves, Spend, Unreadable;
    if Loadable(t, c, caller) && !t.challenges[c].purpose.Bootstrap? && Proves(t, t.challenges[c], proof) {
      var ch := t.challenges[c];
      LoadableEnrols(t, c, proof, caller);
      if ch.purpose.EnrollTotp? || ch.purpose.EnrollWebAuthn? {
        ActivateFollows(t, c, proof);
      } else {
        SpendFollows(t, ch, proof, c);
        var t1 := DropChallenges(Spend(t, proof), {c});
        NewSessionIsSessionsOnly(t1, ch.user, Local, true);
        SessionsOnlyFollows(t, t1, NewSession(t1, ch.user, Local, true));
      }
    }
  }

  lemma RemoveFollows(t: Tables, s: Id, f: Id, ifMatch: Id, recent: bool)
    ensures Follows(t, Remove(t, s, f, ifMatch, recent).0)
  {
    hide FactorsOf, SessionsOf, Unverify, DropSessions;
    if Remove(t, s, f, ifMatch, recent).1.Done? {
      var u := t.sessions[s].user;
      var t1 := RemoveFactor(t, f);
      UnverifyOnlyDrops(t1, u);
      var t2 := if |FactorsOf(t.factors, u)| <= 1 then Unverify(t1, u) else t1;
      DropSessionsOnlyDrops(t2, SessionsOf(t2.sessions, u) - {s});
    }
  }

  /** `t2` differs from `t1` in its sessions, and in lacking challenges and codes. */
  predicate OnlyDrops(t1: Tables, t2: Tables) {
    && t1.next == t2.next && t2.factors == t1.factors
    && (forall d :: d in t2.codes ==> d in t1.codes)
    && forall c :: c in t2.challenges ==> c in t1.challenges && t2.challenges[c] == t1.challenges[c]
  }

  lemma UnverifyOnlyDrops(t: Tables, u: Id)
    ensures OnlyDrops(t, Unverify(t, u))
  {
  }

  lemma DropSessionsOnlyDrops(t: Tables, gone: set<Id>)
    ensures OnlyDrops(t, DropSessions(t, gone))
  {
  }

  lemma RotateCodesFollows(t: Tables, s: Id, ifMatch: Id, recent: bool)
    ensures Follows(t, RotateCodes(t, s, ifMatch, recent).0)
  {
    hide FactorsOf, ReplaceCodes;
    if s in t.sessions {
      ReplaceCodesFollows(t, t.sessions[s].user);
      ReplacedCodesTouchNothingElse(t, t.sessions[s].user);
    }
  }

  lemma RecoverFollows(t: Tables, u: Id, reset: bool)
    ensures Follows(t, Recover(t, u, reset).0)
  {
    hide FactorsOf, SessionsOf, ChallengesOf, OwnedSecrets;
  }

  lemma ReplaceFollows(t: Tables, s: Id)
    requires s in t.sessions && t.sessions[s].user in t.users
    ensures Follows(t, RotateSession(t, s))
  {
    hide SessionsOf, NewSession;
    var asked := t.sessions[s];
    var t1 := ChangeUser(t, asked.user, t.users[asked.user], false);
    NewSessionIsSessionsOnly(t1, asked.user, asked.signIn, asked.mfa);
    SessionsOnlyFollows(t, t1, NewSession(t1, asked.user, asked.signIn, asked.mfa));
  }

  lemma WriteFollows(t: Tables, u: Id, row: User, keepSessions: bool)
    requires u in t.users
    ensures Follows(t, ChangeUser(t, u, row, keepSessions))
  {
    hide SessionsOf;
  }

  lemma SweepFollows(t: Tables, sessions: set<Id>, challenges: set<Id>, secrets: set<Id>)
    ensures Follows(t, DropSecrets(DropChallenges(DropSessions(t, sessions), challenges), secrets))
  {
  }

  lemma EnvironmentFollows(t: Tables, r: Request)
    requires r.Write? || r.Replace? || r.Federated? || r.Join? || r.Settings? || r.Sweep? || r.Wait?
    ensures Follows(t, Step(t, r).0)
  {
    hide FactorsOf, SessionsOf, NewSession, RotateSession, ChangeUser, DropSecrets, DropSessions, DropChallenges;
    match r
    case Write(u, row, keep) => if u in t.users { WriteFollows(t, u, row, keep); }
    case Replace(s) => if Authentic(t, s) { ReplaceFollows(t, s); }
    case Federated(u, how) => if u in t.users { NewSessionIsSessionsOnly(t, u, how, false); }
    case Sweep(sessions, challenges, secrets) =>
      var (s, c, x) := Expired(t);
      SweepFollows(t, sessions * s, challenges * c, secrets * x);
    case _ =>
  }

  lemma StepFollows(t: Tables, r: Request)
    requires Inv(t)
    ensures Follows(t, Step(t, r).0)
  {
    hide Follows, LocalSession, SessionChallenge, BeginEnrollment, Verify, Remove, RotateCodes, Recover, ChangeUser,
      RotateSession;
    hide Ids, Sealed, Current, Limited, Proven, ChallengesBounded, SessionsBounded;
    match r
    case SignIn(u, origin) => SignInFollows(t, u, origin);
    case Ask(s, purpose, origin) => SessionChallengeFollows(t, s, purpose, origin);
    case Begin(who, kind, origin) => BeginEnrollmentFollows(t, who, kind, origin);
    case Check(c, proof, caller) => VerifyFollows(t, c, proof, caller);
    case Delete(s, f, ifMatch, recent) => RemoveFollows(t, s, f, ifMatch, recent);
    case Renew(s, ifMatch, recent) => RotateCodesFollows(t, s, ifMatch, recent);
    case Reset(u, mfa) => RecoverFollows(t, u, mfa);
    case _ => EnvironmentFollows(t, r);
  }

  // Nothing is accepted twice.

  /** Something a caller presents for acceptance: a challenge, a recovery code,
      or the code of a TOTP secret for one time step. */
  datatype Token = TheChallenge(challenge: Id) | TheCode(digest: Id) | TheTimeStep(secret: Id, counter: nat)

  predicate Presents(r: Request, k: Token) {
    r.Check? &&
    match k
    case TheChallenge(c) => r.challenge == c
    case TheCode(d) => r.proof == RecoveryCode(d)
    case TheTimeStep(f, n) => r.proof == TotpCode(f, n)
  }

  predicate Accepts(y: Reply) {
    y.SignedIn? || y.Granted? || y.Enrolled?
  }

  /** How often a run accepts a token. */
  function Acceptances(t: Tables, run: seq<Request>, k: Token): nat
    decreases |run|
  {
    if run == [] then 0
    else
      var (t', y) := Step(t, run[0]);
      (if Presents(run[0], k) && Accepts(y) then 1 else 0) + Acceptances(t', run[1..], k)
  }

  /** How often a run counts a failure against a challenge. */
  function Failures(t: Tables, run: seq<Request>, c: Id): nat
    decreases |run|
  {
    if run == [] then 0
    else
      var (t', y) := Step(t, run[0]);
      (if Presents(run[0], TheChallenge(c)) && y.Failed? then 1 else 0) + Failures(t', run[1..], c)
  }

  predicate Spent(t: Tables, k: Token) {
    match k
    case TheChallenge(c) => c < t.next && c !in t.challenges
    case TheCode(d) => d < t.next && d !in t.codes
    case TheTimeStep(f, n) => f < t.next && !Pending(t.challenges, f) && (f in t.factors ==> t.factors[f].last >= n)
  }

  lemma SpentStaysSpent(t: Tables, t': Tables, k: Token)
    requires Spent(t, k) && Follows(t, t')
    ensures Spent(t', k)
  {
  }

  lemma SpentIsNotAccepted(t: Tables, r: Request, k: Token)
    requires Spent(t, k) && Presents(r, k)
    ensures !Accepts(Step(t, r).1)
  {
    hide Activate, NewSession, FactorsOf;
  }

  lemma AcceptedByActivationIsSpent(t: Tables, c: Id, proof: Proof, k: Token)
    requires Inv(t) && Enrolling(t, c, proof) && Proves(t, t.challenges[c], proof)
    requires t.challenges[c].purpose.EnrollTotp? || t.challenges[c].purpose.EnrollWebAuthn?
    requires Presents(Check(c, proof, None), k)
    ensures Spent(Activate(t, c, proof).0, k)
  {
    hide Current, Limited, Proven, ChallengesBounded, SessionsBounded, FactorsOf, NewSession, Activated;
    hide UserIds, SessionIds, CodeIds, SecretIds, FactorIds;
    var ch := t.challenges[c];
    var t1 := Activated(t, c, proof);
    ActivatedChanges(t, c, proof);
    assert RefersTo(t.next, t.users.Keys, t.sessions.Keys, ch);
    assert Spent(t1, k);
    var t2 := if ch.session.None? then t1 else DropSessions(t1, SessionsOf(t1.sessions, ch.user));
    assert SessionsOnly(t1, t2);
    var signIn := if ch.session.None? then Local else t.sessions[ch.session.value].signIn;
    NewSessionIsSessionsOnly(t2, ch.user, signIn, true);
    var t3 := NewSession(t2, ch.user, signIn, true);
    assert SessionsOnly(t1, t3);
    SessionsOnlyKeepsSpent(t1, t3, k);
  }

  lemma SessionsOnlyKeepsSpent(t1: Tables, t2: Tables, k: Token)
    requires Spent(t1, k) && SessionsOnly(t1, t2)
    ensures Spent(t2, k)
  {
  }

  lemma AcceptedByProofIsSpent(t: Tables, c: Id, proof: Proof, k: Token)
    requires Inv(t) && c in t.challenges && Proves(t, t.challenges[c], proof)
    requires !t.challenges[c].purpose.EnrollTotp? && !t.challenges[c].purpose.EnrollWebAuthn?
    requires Presents(Check(c, proof, None), k)
    ensures Spent(DropChallenges(Spend(t, proof), {c}), k)
  {
    hide Current, Limited, Proven, ChallengesBounded, SessionsBounded, FactorsOf, UserIds, SessionIds, SecretIds;
  }

  lemma AcceptedIsSpent(t: Tables, r: Request, k: Token)
    requires Inv(t) && Presents(r, k)
    ensures Accepts(Step(t, r).1) ==> Spent(Step(t, r).0, k)
  {
    hide Base, Proven, FactorsOf, NewSession, Activate, Proves, Spend, Spent;
    var c, proof := r.challenge, r.proof;
    if !Accepts(Step(t, r).1) {
      return;
    }
    var ch := t.challenges[c];
    LoadableEnrols(t, c, proof, r.caller);
    if ch.purpose.EnrollTotp? || ch.purpose.EnrollWebAuthn? {
      AcceptedByActivationIsSpent(t, c, proof, k);
    } else {
      AcceptedByProofIsSpent(t, c, proof, k);
      SpendFollows(t, ch, proof, c);
      var t1 := DropChallenges(Spend(t, proof), {c});
      NewSessionIsSessionsOnly(t1, ch.user, Local, true);
      SessionsOnlyKeepsSpent(t1, NewSession(t1, ch.user, Local, true), k);
    }
  }

  lemma {:induction false} SpentIsNeverAccepted(t: Tables, run: seq<Request>, k: Token)
    requires Inv(t) && Spent(t, k)
    ensures Acceptances(t, run, k) == 0
    decreases |run|
  {
    hide Inv, Step, Spent, Follows;
    if run != [] {
      var t' := Step(t, run[0]).0;
      if Presents(run[0], k) {
        SpentIsNotAccepted(t, run[0], k);
      }
      StepKeepsInv(t, run[0]);
      StepFollows(t, run[0]);
      SpentStaysSpent(t, t', k);
      SpentIsNeverAccepted(t', run[1..], k);
    }
  }

  /** Each challenge, recovery code and TOTP time step is accepted at most once
      in a run, whatever happens in between. */
  lemma {:induction false} AcceptedAtMostOnce(t: Tables, run: seq<Request>, k: Token)
    requires Inv(t)
    ensures Acceptances(t, run, k) <= 1
    decreases |run|
  {
    hide Inv, Step, Spent;
    if run != [] {
      var (t', y) := Step(t, run[0]);
      StepKeepsInv(t, run[0]);
      if Presents(run[0], k) && Accepts(y) {
        AcceptedIsSpent(t, run[0], k);
        SpentIsNeverAccepted(t', run[1..], k);
      } else {
        AcceptedAtMostOnce(t', run[1..], k);
      }
    }
  }

  /** The failures a challenge still has left. */
  function Remaining(t: Tables, c: Id): int {
    if c in t.challenges then MAX_ATTEMPTS - t.challenges[c].attempts else if c < t.next then 0 else MAX_ATTEMPTS
  }

  lemma RemainingNeverGrows(t: Tables, r: Request, c: Id)
    requires Inv(t)
    ensures 0 <= Remaining(Step(t, r).0, c) <= Remaining(t, c)
  {
    hide Step, Sealed, Current, Limited, Proven, SessionsBounded, UserIds, SessionIds, SecretIds, FactorIds, CodeIds;
    StepFollows(t, r);
    StepKeepsInv(t, r);
  }

  lemma FailureUsesAnAttempt(t: Tables, r: Request, c: Id)
    requires Presents(r, TheChallenge(c)) && Step(t, r).1.Failed?
    ensures Remaining(Step(t, r).0, c) == Remaining(t, c) - 1
  {
    hide Activated, NewSession, FactorsOf;
  }

  lemma {:induction false} FailuresUseRemaining(t: Tables, run: seq<Request>, c: Id)
    requires Inv(t)
    ensures Failures(t, run, c) <= Remaining(t, c)
    decreases |run|
  {
    hide Inv, Step, Remaining;
    if run == [] {
      RemainingNeverGrows(t, Wait(0), c);
    } else {
      var t' := Step(t, run[0]).0;
      StepKeepsInv(t, run[0]);
      FailuresUseRemaining(t', run[1..], c);
      RemainingNeverGrows(t, run[0], c);
      if Presents(run[0], TheChallenge(c)) && Step(t, run[0]).1.Failed? {
        FailureUsesAnAttempt(t, run[0], c);
      }
    }
  }

  /** A challenge survives at most five wrong answers. */
  lemma AtMostFiveFailures(t: Tables, run: seq<Request>, c: Id)
    requires Inv(t)
    ensures Failures(t, run, c) <= 5
  {
    hide Inv, Step;
    FailuresUseRemaining(t, run, c);
  }

  // Changing factors cuts off everything that was under way.

  lemma OneSessionLeft(t: Tables, u: Id, signIn: Kernel.SignIn, mfa: bool)
    requires u in t.users && t.next !in t.sessions
    ensures SessionsOf(NewSession(DropSessions(t, SessionsOf(t.sessions, u)), u, signIn, mfa).sessions, u) == {t.next}
  {
  }

  /** After an enrolment from a session, the new session is the user's only one. */
  lemma EnrolmentLeavesOneSession(t: Tables, c: Id, proof: Proof, caller: Option<Id>)
    requires Inv(t) && c in t.challenges && t.challenges[c].session.Some?
    ensures var (t', y) := Verify(t, c, proof, caller);
            y.Enrolled? ==> SessionsOf(t'.sessions, t.challenges[c].user) == {y.newSession}
  {
    hide Sealed, Current, Limited, Proven, ChallengesBounded, SessionsBounded, FactorsOf, SessionsOf, NewSession,
      Activated, Spend;
    if Verify(t, c, proof, caller).1.Enrolled? {
      LoadableEnrols(t, c, proof, caller);
      var t1 := Activated(t, c, proof);
      ActivatedChanges(t, c, proof);
      OneSessionLeft(t1, t.challenges[c].user, t.sessions[t.challenges[c].session.value].signIn, true);
    }
  }

  /** After a removal, the session that asked is the user's only one. */
  lemma RemovalLeavesOneSession(t: Tables, s: Id, f: Id, ifMatch: Id, recent: bool)
    requires Remove(t, s, f, ifMatch, recent).1.Done?
    ensures SessionsOf(Remove(t, s, f, ifMatch, recent).0.sessions, t.sessions[s].user) == {s}
  {
    hide FactorsOf;
    var u := t.sessions[s].user;
    var t' := Remove(t, s, f, ifMatch, recent).0;
    forall k ensures k in SessionsOf(t'.sessions, u) <==> k == s {
    }
  }

  /** The requests that change a user's factors or recovery codes. */
  function Changes(t: Tables, r: Request): Option<Id> {
    match (r, Step(t, r).1)
    case (Check(c, _, _), Enrolled(_, _)) => if c in t.challenges then Some(t.challenges[c].user) else None
    case (Delete(s, _, _, _), Done) => if s in t.sessions then Some(t.sessions[s].user) else None
    case (Renew(s, _, _), Done) => if s in t.sessions then Some(t.sessions[s].user) else None
    case (Reset(u, mfa), Done) => if mfa then Some(u) else None
    case _ => None
  }

  lemma ResetDrawsRevision(t: Tables, u: Id)
    requires Recover(t, u, true).1.Done?
    ensures u in Recover(t, u, true).0.users && Recover(t, u, true).0.users[u].mfaRevision >= t.next
  {
    hide SessionsOf, FactorsOf, ChallengesOf, OwnedSecrets;
  }

  lemma ManagingDrawsRevision(t: Tables, r: Request, u: Id)
    requires (r.Delete? || r.Renew?) && Changes(t, r) == Some(u)
    ensures u in Step(t, r).0.users && Step(t, r).0.users[u].mfaRevision >= t.next
  {
    hide FactorsOf, SessionsOf, CodesFor, NewCodes;
  }

  lemma ChangeDrawsRevision(t: Tables, r: Request, u: Id)
    requires Inv(t) && Changes(t, r) == Some(u)
    ensures u in Step(t, r).0.users && Step(t, r).0.users[u].mfaRevision >= t.next
  {
    hide Sealed, Current, Limited, Proven, ChallengesBounded, SessionsBounded, FactorsOf, NewSession, Spend, Recover,
      Remove, RotateCodes;
    match r
    case Check(c, proof, caller) =>
      LoadableEnrols(t, c, proof, caller);
      ActivationDrawsRevision(t, c, proof);
    case Delete(_, _, _, _) => ManagingDrawsRevision(t, r, u);
    case Renew(_, _, _) => ManagingDrawsRevision(t, r, u);
    case Reset(_, _) => ResetDrawsRevision(t, u);
    case _ =>
  }

  lemma ActivationDrawsRevision(t: Tables, c: Id, proof: Proof)
    requires Enrolling(t, c, proof)
    ensures var t' := Activate(t, c, proof).0; var u := t.challenges[c].user;
            u in t'.users && t'.users[u].mfaRevision >= t.next
  {
    hide NewSession, Activated;
    var ch := t.challenges[c];
    var t1 := Activated(t, c, proof);
    var t2 := if ch.session.None? then t1 else DropSessions(t1, SessionsOf(t1.sessions, ch.user));
    var signIn := if ch.session.None? then Local else t.sessions[ch.session.value].signIn;
    NewSessionIsSessionsOnly(t2, ch.user, signIn, true);
    ActivatedChanges(t, c, proof);
  }

  // A user's revision never goes back.

  predicate RevisionsGrow(t: Tables, t': Tables) {
    forall u :: u in t.users ==> u in t'.users && t.users[u].mfaRevision <= t'.users[u].mfaRevision
  }

  lemma StoreFlowKeepsUsers(t: Tables, u: Id, session: Option<Id>, purpose: Purpose, secret: Option<Id>, webauthn: bool)
    requires u in t.users
    ensures StoreFlow(t, u, session, purpose, secret, webauthn).users == t.users
  {
    hide Stale, StaleSecrets;
  }

  lemma SignInKeepsUsers(t: Tables, u: Id, origin: bool)
    ensures LocalSession(t, u, origin).0.users == t.users
  {
    hide StoreFlow, NewSession, FactorsOf, HasTotp, HasKey, HasCode;
    if Usable(t, u) {
      NewSessionIsSessionsOnly(t, u, Local, false);
      StoreFlowKeepsUsers(t, u, None, Login, None, HasKey(t.factors, u) && origin);
      StoreFlowKeepsUsers(t, u, None, Bootstrap, None, HasKey(t.factors, u) && origin);
    }
  }

  lemma AskingKeepsUsers(t: Tables, s: Id, purpose: Purpose, origin: bool)
    ensures SessionChallenge(t, s, purpose, origin).0.users == t.users
  {
    hide StoreFlow, FactorsOf, HasTotp, HasKey, HasCode;
    if Authentic(t, s) {
      var u := t.sessions[s].user;
      StoreFlowKeepsUsers(t, u, Some(s), purpose, None, HasKey(t.factors, u) && origin);
    }
  }

  lemma BeginningKeepsUsers(t: Tables, who: Enroller, kind: Kind, origin: bool)
    ensures BeginEnrollment(t, who, kind, origin).0.users == t.users
  {
    hide StoreFlow, FactorsOf, HasTotp;
    if MayEnroll(t, who) {
      var u := if who.ByChallenge? then t.challenges[who.c].user else t.sessions[who.s].user;
      var session := if who.ByChallenge? then None else Some(who.s);
      var t1 := if who.ByChallenge? then DropChallenges(t, {who.c}) else t;
      StoreFlowKeepsUsers(AddSecret(t1, Some(t.now + MFA_TTL)), u, session, EnrollTotp, Some(t.next), false);
      StoreFlowKeepsUsers(t1, u, session, EnrollWebAuthn, None, true);
    }
  }

  /** Only one row changes, and it gets a revision that is new. */
  lemma NewRevisionGrows(t: Tables, t': Tables, u: Id)
    requires UserIds(t.next, t.users) && u in t.users && u in t'.users && t'.users[u].mfaRevision >= t.next
    requires t'.users == t.users[u := t'.users[u]]
    ensures RevisionsGrow(t, t')
  {
  }

  lemma ActivatedUsers(t: Tables, c: Id, proof: Proof)
    requires Enrolling(t, c, proof)
    ensures var t', u := Activated(t, c, proof), t.challenges[c].user;
            u in t'.users && t'.users == t.users[u := t'.users[u]]
  {
    hide FactorsOf, ReplaceCodes, AddFactor;
    var ch := t.challenges[c];
    var totp := ch.purpose.EnrollTotp?;
    var t1 := if totp then DropChallenges(t, {c}) else AddSecret(DropChallenges(t, {c}), None);
    var kind, counter := if totp then Totp else WebAuthn, if totp then proof.counter else 0;
    AddFactorUsers(t1, NewFactor(t, c), ch.user, kind, counter);
    ReplacedCodesTouchNothingElse(AddFactor(t1, NewFactor(t, c), ch.user, kind, counter), ch.user);
  }

  lemma AddFactorUsers(t: Tables, f: Id, u: Id, kind: Kind, counter: int)
    requires u in t.users
    ensures var t' := AddFactor(t, f, u, kind, counter); u in t'.users && t'.users == t.users[u := t'.users[u]]
  {
  }

  lemma ActivatedGrows(t: Tables, c: Id, proof: Proof)
    requires UserIds(t.next, t.users) && Enrolling(t, c, proof)
    ensures RevisionsGrow(t, Activated(t, c, proof))
  {
    hide Activated, UserIds, RevisionsGrow, CodesFollow;
    ActivatedUsers(t, c, proof);
    ActivatedChanges(t, c, proof);
    NewRevisionGrows(t, Activated(t, c, proof), t.challenges[c].user);
  }

  lemma ActivateGrows(t: Tables, c: Id, proof: Proof)
    requires UserIds(t.next, t.users) && Enrolling(t, c, proof)
    ensures RevisionsGrow(t, Activate(t, c, proof).0)
  {
    hide NewSession, Activated;
    var ch := t.challenges[c];
    var t1 := Activated(t, c, proof);
    ActivatedGrows(t, c, proof);
    var t2 := if ch.session.None? then t1 else DropSessions(t1, SessionsOf(t1.sessions, ch.user));
    NewSessionIsSessionsOnly(t2, ch.user, if ch.session.None? then Local else t.sessions[ch.session.value].signIn,
      true);
  }

  lemma VerifyGrows(t: Tables, c: Id, proof: Proof, caller: Option<Id>)
    requires Inv(t)
    ensures RevisionsGrow(t, Verify(t, c, proof, caller).0)
  {
    hide Sealed, Current, Limited, Proven, ChallengesBounded, SessionsBounded, FactorsOf, NewSession, Activate,
      Spend, Proves, Unreadable;
    if Loadable(t, c, caller) && Proves(t, t.challenges[c], proof) {
      var ch := t.challenges[c];
      if ch.purpose.EnrollTotp? || ch.purpose.EnrollWebAuthn? {
        LoadableEnrols(t, c, proof, caller);
        ActivateGrows(t, c, proof);
      } else {
        SpendFollows(t, ch, proof, c);
        NewSessionIsSessionsOnly(DropChallenges(Spend(t, proof), {c}), ch.user, Local, true);
      }
    }
  }

  lemma RemoveGrows(t: Tables, s: Id, f: Id, ifMatch: Id, recent: bool)
    requires UserIds(t.next, t.users)
    ensures RevisionsGrow(t, Remove(t, s, f, ifMatch, recent).0)
  {
    hide FactorsOf, SessionsOf, DropSessions, UserIds;
    var t' := Remove(t, s, f, ifMatch, recent).0;
    if Remove(t, s, f, ifMatch, recent).1.Done? {
      var u := t.sessions[s].user;
      assert t'.users == t.users[u := t.users[u].(mfaRevision := t.next)] by {
        DroppingKeepsUsers(RemoveFactor(t, f), SessionsOf(RemoveFactor(t, f).sessions, u) - {s});
        var t2 := Unverify(RemoveFactor(t, f), u);
        DroppingKeepsUsers(t2, SessionsOf(t2.sessions, u) - {s});
      }
      NewRevisionGrows(t, t', u);
    }
  }

  lemma DroppingKeepsUsers(t: Tables, sessions: set<Id>)
    ensures DropSessions(t, sessions).users == t.users
  {
  }

  lemma RotateCodesGrows(t: Tables, s: Id, ifMatch: Id, recent: bool)
    requires UserIds(t.next, t.users)
    ensures RevisionsGrow(t, RotateCodes(t, s, ifMatch, recent).0)
  {
    hide FactorsOf, CodesFor, NewCodes;
  }

  lemma WriteGrows(t: Tables, u: Id, row: User, keepSessions: bool)
    requires u in t.users
    ensures var t' := ChangeUser(t, u, row, keepSessions);
            && RevisionsGrow(t, t') && t'.users.Keys == t.users.Keys && t.next <= t'.next
            && t'.users == t.users[u := t'.users[u]]
  {
    hide SessionsOf;
  }

  lemma RecoverGrows(t: Tables, u: Id, reset: bool)
    requires UserIds(t.next, t.users)
    ensures RevisionsGrow(t, Recover(t, u, reset).0)
  {
    hide FactorsOf, ChallengesOf, OwnedSecrets, ChangeUser, UserIds, RevisionsGrow;
    if u in t.users && t.users[u].active {
      var t1 := ChangeUser(t, u, t.users[u].(password := true), false);
      WriteGrows(t, u, t.users[u].(password := true), false);
      if reset {
        NewRevisionGrows(t, Recover(t, u, reset).0, u);
      }
    } else {
      SameGrows(t);
    }
  }

  lemma SameGrows(t: Tables)
    ensures RevisionsGrow(t, t)
  {
  }

  lemma ReplaceGrows(t: Tables, s: Id)
    requires s in t.sessions && t.sessions[s].user in t.users
    ensures RevisionsGrow(t, RotateSession(t, s))
  {
    hide NewSession, ChangeUser;
    var asked := t.sessions[s];
    WriteGrows(t, asked.user, t.users[asked.user], false);
    NewSessionIsSessionsOnly(ChangeUser(t, asked.user, t.users[asked.user], false), asked.user, asked.signIn,
      asked.mfa);
  }

  lemma EnvironmentGrows(t: Tables, r: Request)
    requires UserIds(t.next, t.users)
    requires r.Write? || r.Replace? || r.Federated? || r.Join? || r.Settings? || r.Sweep? || r.Wait?
    ensures RevisionsGrow(t, Step(t, r).0)
  {
    hide NewSession, FactorsOf, Expired, ChangeUser, RotateSession;
    if r.Replace? && Authentic(t, r.session) {
      ReplaceGrows(t, r.session);
    } else if r.Write? && r.user in t.users {
      WriteGrows(t, r.user, r.row, r.keepSessions);
    } else if r.Federated? && r.user in t.users {
      NewSessionIsSessionsOnly(t, r.user, r.how, false);
    }
  }

  lemma StepGrows(t: Tables, r: Request)
    requires Inv(t)
    ensures RevisionsGrow(t, Step(t, r).0)
  {
    hide LocalSession, SessionChallenge, BeginEnrollment, Verify, Remove, RotateCodes, Recover, ChangeUser,
      RotateSession, Expired;
    hide Sealed, Current, Limited, Proven, ChallengesBounded, SessionsBounded, UserIds;
    match r
    case SignIn(u, origin) => SignInKeepsUsers(t, u, origin);
    case Ask(s, purpose, origin) => AskingKeepsUsers(t, s, purpose, origin);
    case Begin(who, kind, origin) => BeginningKeepsUsers(t, who, kind, origin);
    case Check(c, proof, caller) => VerifyGrows(t, c, proof, caller);
    case Delete(s, f, ifMatch, recent) => RemoveGrows(t, s, f, ifMatch, recent);
    case Renew(s, ifMatch, recent) => RotateCodesGrows(t, s, ifMatch, recent);
    case Reset(u, mfa) => RecoverGrows(t, u, mfa);
    case _ => EnvironmentGrows(t, r);
  }

  /** The challenge is gone for good, or issued under a revision that is past. */
  predicate Outdated(t: Tables, c: Id) {
    c < t.next && (c in t.challenges ==>
      t.challenges[c].user in t.users && t.challenges[c].revision < t.users[t.challenges[c].user].mfaRevision)
  }

  lemma StepKeepsOutdated(t: Tables, r: Request, c: Id)
    requires Inv(t) && Outdated(t, c)
    ensures Outdated(Step(t, r).0, c)
  {
    hide Inv, Step, CodesFollow, FactorsFollow;
    StepFollows(t, r);
    StepGrows(t, r);
  }

  lemma {:induction false} RunKeepsOutdated(t: Tables, run: seq<Request>, c: Id)
    requires Inv(t) && Outdated(t, c)
    ensures Outdated(After(t, run), c)
    decreases |run|
  {
    hide Inv, Step, Outdated;
    if run != [] {
      StepKeepsInv(t, run[0]);
      StepKeepsOutdated(t, run[0], c);
      RunKeepsOutdated(Step(t, run[0]).0, run[1..], c);
    }
  }

  lemma ChangeOutdates(t: Tables, r: Request, c: Id)
    requires Inv(t) && c in t.challenges && Changes(t, r) == Some(t.challenges[c].user)
    ensures Outdated(Step(t, r).0, c)
  {
    hide Step, Sealed, Current, Limited, Proven, ChallengesBounded, SessionsBounded, Changes;
    ChangeDrawsRevision(t, r, t.challenges[c].user);
    StepFollows(t, r);
    assert RefersTo(t.next, t.users.Keys, t.sessions.Keys, t.challenges[c]);
  }

  /** Once a user's factors or codes have changed, no challenge issued to that
      user before can be answered by anyone, in any later state of any run. */
  lemma ChangeRetiresChallenges(t: Tables, r: Request, later: seq<Request>, c: Id, caller: Option<Id>)
    requires Inv(t) && c in t.challenges
    ensures Changes(t, r) == Some(t.challenges[c].user) ==> !Loadable(After(Step(t, r).0, later), c, caller)
  {
    hide Step, Inv, Changes;
    if Changes(t, r) == Some(t.challenges[c].user) {
      ChangeOutdates(t, r, c);
      StepKeepsInv(t, r);
      RunKeepsOutdated(Step(t, r).0, later, c);
    }
  }

  // An enrolment that nothing gets in the way of succeeds.

  lemma NewChallengeIsLoadable(t: Tables, s: Id, purpose: Purpose, secret: Option<Id>, webauthn: bool)
    requires Authentic(t, s)
    ensures var u := t.sessions[s].user; var t' := StoreFlow(t, u, Some(s), purpose, secret, webauthn);
            && Loadable(t', t.next, Some(s)) && t'.challenges[t.next].purpose == purpose
               && t'.challenges[t.next].secret == secret
            && t'.challenges[t.next].user == u && t'.factors == t.factors && t'.now == t.now
            && (&& secret.Some? && t.next !in t.challenges && Readable(t, secret.value)
                && secret.value !in StaleSecrets(t, u)
                ==> Readable(t', secret.value))
  {
    hide Surplus, FactorsOf;
  }

  lemma PendingSecretIsNotStale(t: Tables, u: Id, expires: Option<Time>)
    requires Ids(t)
    ensures t.next !in StaleSecrets(AddSecret(t, expires), u)
  {
    hide Surplus;
    assert forall c :: c in t.challenges ==> RefersTo(t.next, t.users.Keys, t.sessions.Keys, t.challenges[c]);
  }

  /** From any state, a session that just confirmed its identity and whose user
      has room for a TOTP factor can enrol one: the code of the new secret for
      the present time step is accepted. */
  lemma EnrolmentSucceeds(t: Tables, s: Id, counter: nat, origin: bool)
    requires Inv(t) && Authentic(t, s) && !HasTotp(t.factors, t.sessions[s].user)
             && |FactorsOf(t.factors, t.sessions[s].user)| < MAX_FACTORS
    requires t.now / 30 - 1 <= counter <= t.now / 30 + 1
    ensures var (t1, y) := Step(t, Begin(BySession(s, true), Totp, origin));
            y.Issued? && Step(t1, Check(y.challenge, TotpCode(t.next, counter), Some(s))).1.Enrolled?
  {
    hide Sealed, Current, Limited, Proven, ChallengesBounded, SessionsBounded, StoreFlow, FactorsOf, HasTotp,
      NewSession, Activated;
    var u := t.sessions[s].user;
    var t0 := AddSecret(t, Some(t.now + MFA_TTL));
    assert Authentic(t0, s) by { AddingASecretKeepsSessions(t, s); }
    NewChallengeIsLoadable(t0, s, EnrollTotp, Some(t.next), false);
    PendingSecretIsNotStale(t, u, Some(t.now + MFA_TTL));
  }

  lemma AddingASecretKeepsSessions(t: Tables, s: Id)
    requires Authentic(t, s)
    ensures Authentic(AddSecret(t, Some(t.now + MFA_TTL)), s)
  {
  }
}
