/** What every reachable state of the MFA tables satisfies, shown statement by
    statement and then handler by handler. */
module MfaInvariants {
  import opened Common
  import opened Kernel
  import opened Mfa

  // Every identifier in use was drawn from the supply, and rows refer to rows.

  predicate UserIds(next: Id, users: map<Id, User>) {
    forall u :: u in users ==> u < next && users[u].etag < next && users[u].mfaRevision < next
  }

  predicate SessionIds(next: Id, users: set<Id>, sessions: map<Id, Session>) {
    forall s :: s in sessions ==> s < next && sessions[s].user in users
  }

  predicate FactorIds(next: Id, users: set<Id>, factors: map<Id, Factor>) {
    forall f :: f in factors ==> f < next && factors[f].user in users
  }

  predicate CodeIds(next: Id, users: set<Id>, codes: map<Id, Id>) {
    forall d :: d in codes ==> d < next && codes[d] in users
  }

  predicate SecretIds(next: Id, secrets: map<Id, Secret>) {
    forall x :: x in secrets ==> x < next
  }

  predicate ChallengeIds(next: Id, users: set<Id>, sessions: set<Id>, challenges: map<Id, Challenge>) {
    forall c :: c in challenges ==> c < next && RefersTo(next, users, sessions, challenges[c])
  }

  predicate RefersTo(next: Id, users: set<Id>, sessions: set<Id>, ch: Challenge) {
    && ch.user in users && ch.etag < next && ch.revision < next
    && (ch.session.Some? ==> ch.session.value in sessions)
    && (ch.secret.Some? ==> ch.secret.value < next)
  }

  predicate Ids(t: Tables) {
    && UserIds(t.next, t.users) && SessionIds(t.next, t.users.Keys, t.sessions)
       && FactorIds(t.next, t.users.Keys, t.factors)
    && CodeIds(t.next, t.users.Keys, t.codes) && SecretIds(t.next, t.secrets)
    && ChallengeIds(t.next, t.users.Keys, t.sessions.Keys, t.challenges)
  }

  /** A factor's secret is kept for good, and a pending enrolment's secret is
      neither a factor's nor another enrolment's. */
  predicate Sealed(factors: map<Id, Factor>, secrets: map<Id, Secret>, challenges: map<Id, Challenge>) {
    && (forall f :: f in factors ==> f in secrets && secrets[f].expires.None?)
    && (forall c :: c in challenges && challenges[c].secret.Some? ==>
          challenges[c].purpose.EnrollTotp? && challenges[c].secret.value !in factors)
    && (forall c, d | c in challenges && d in challenges && challenges[c].secret.Some? ::
          challenges[c].secret == challenges[d].secret ==> c == d)
  }

  /** Whether the user's factors have stayed the same since the challenge was issued. */
  predicate IsCurrent(users: map<Id, User>, ch: Challenge) {
    ch.user in users && users[ch.user].mfaRevision == ch.revision
  }

  /** The facts a challenge of this purpose was issued on. */
  predicate Founded(factors: map<Id, Factor>, ch: Challenge) {
    && (ch.purpose.EnrollTotp? ==> !HasTotp(factors, ch.user))
    && (ch.purpose.Login? || ch.purpose.Manage? || ch.purpose.Reauth? ==> FactorsOf(factors, ch.user) != {})
  }

  /** A matching revision means the facts the challenge was issued on still hold. */
  predicate Current(users: map<Id, User>, factors: map<Id, Factor>, challenges: map<Id, Challenge>) {
    forall c :: c in challenges && IsCurrent(users, challenges[c]) ==> Founded(factors, challenges[c])
  }

  ghost predicate Limited(factors: map<Id, Factor>) {
    && (forall f, g | f in factors && g in factors && factors[f].kind.Totp? && factors[g].kind.Totp? ::
          factors[f].user == factors[g].user ==> f == g)
    && (forall u :: |FactorsOf(factors, u)| <= MAX_FACTORS)
  }

  /** Recovery codes and verified local sessions exist only beside a factor. */
  predicate Proven(factors: map<Id, Factor>, codes: map<Id, Id>, sessions: map<Id, Session>) {
    && (forall d :: d in codes ==> FactorsOf(factors, codes[d]) != {})
    && (forall s :: s in sessions && sessions[s].signIn.Local? && sessions[s].mfa ==>
         FactorsOf(factors, sessions[s].user) != {})
  }

  ghost predicate ChallengesBounded(challenges: map<Id, Challenge>) {
    && (forall c :: c in challenges ==> challenges[c].attempts <= MAX_ATTEMPTS)
    && (forall u :: |ChallengesOf(challenges, u)| <= 8)
  }

  ghost predicate SessionsBounded(sessions: map<Id, Session>) {
    forall u :: |SessionsOf(sessions, u)| <= 20
  }

  ghost predicate Base(t: Tables) {
    && Ids(t) && Sealed(t.factors, t.secrets, t.challenges) && Current(t.users, t.factors, t.challenges)
    && Limited(t.factors) && ChallengesBounded(t.challenges) && SessionsBounded(t.sessions)
  }

  ghost predicate Inv(t: Tables) {
    Base(t) && Proven(t.factors, t.codes, t.sessions)
  }

  // Statements that only delete.

  /** `t2` differs from `t1` at most by lacking sessions, challenges and codes,
      and keeps every reference of what it kept. */
  ghost predicate Shrinks(t1: Tables, t2: Tables) {
    && t2.next >= t1.next && t2.factors == t1.factors
    && (forall f :: f in t1.factors && f in t1.secrets ==> f in t2.secrets && t2.secrets[f] == t1.secrets[f])
    && t2.secrets.Keys <= t1.secrets.Keys
    && t2.users.Keys == t1.users.Keys
    && (forall u :: u in t2.users ==>
          && t2.users[u].etag < t2.next
          && (t2.users[u].mfaRevision == t1.users[u].mfaRevision || t1.next <= t2.users[u].mfaRevision < t2.next))
    && (forall s :: s in t2.sessions ==> s in t1.sessions && t2.sessions[s] == t1.sessions[s])
    && (forall c :: c in t2.challenges ==> c in t1.challenges && t2.challenges[c] == t1.challenges[c])
    && (forall c :: c in t2.challenges && t2.challenges[c].session.Some? ==>
         t2.challenges[c].session.value in t2.sessions)
    && (forall d :: d in t2.codes ==> d in t1.codes && t2.codes[d] == t1.codes[d])
  }

  lemma ShrinkingKeepsIds(t1: Tables, t2: Tables)
    requires Ids(t1) && Shrinks(t1, t2)
    ensures Ids(t2)
  {
    forall c | c in t2.challenges ensures RefersTo(t2.next, t2.users.Keys, t2.sessions.Keys, t2.challenges[c]) {
      assert RefersTo(t1.next, t1.users.Keys, t1.sessions.Keys, t1.challenges[c]);
    }
  }

  lemma ShrinkingKeepsSealed(t1: Tables, t2: Tables)
    requires Shrinks(t1, t2) && Sealed(t1.factors, t1.secrets, t1.challenges)
    ensures Sealed(t2.factors, t2.secrets, t2.challenges)
  {
  }

  lemma ShrinkingKeepsProven(t1: Tables, t2: Tables)
    requires Shrinks(t1, t2) && Proven(t1.factors, t1.codes, t1.sessions)
    ensures Proven(t2.factors, t2.codes, t2.sessions)
  {
  }

  lemma ShrinkingKeepsBounds(t1: Tables, t2: Tables)
    requires Shrinks(t1, t2)
    ensures ChallengesBounded(t1.challenges) ==> ChallengesBounded(t2.challenges)
    ensures SessionsBounded(t1.sessions) ==> SessionsBounded(t2.sessions)
  {
    forall u ensures |ChallengesOf(t2.challenges, u)| <= |ChallengesOf(t1.challenges, u)| {
      SubsetSize(ChallengesOf(t2.challenges, u), ChallengesOf(t1.challenges, u));
    }
    forall u ensures |SessionsOf(t2.sessions, u)| <= |SessionsOf(t1.sessions, u)| {
      SubsetSize(SessionsOf(t2.sessions, u), SessionsOf(t1.sessions, u));
    }
  }

  lemma ShrinkingKeepsCurrent(t1: Tables, t2: Tables)
    requires Ids(t1) && Current(t1.users, t1.factors, t1.challenges) && Shrinks(t1, t2)
    ensures Current(t2.users, t2.factors, t2.challenges)
  {
    forall c | c in t2.challenges
      && IsCurrent(t2.users, t2.challenges[c]) ensures Founded(t2.factors, t2.challenges[c]) {
      assert RefersTo(t1.next, t1.users.Keys, t1.sessions.Keys, t1.challenges[c]);
      assert IsCurrent(t1.users, t1.challenges[c]);
    }
  }

  lemma ShrinkingKeepsInv(t1: Tables, t2: Tables)
    requires Base(t1) && Shrinks(t1, t2)
    ensures Base(t2)
    ensures Proven(t1.factors, t1.codes, t1.sessions) ==> Proven(t2.factors, t2.codes, t2.sessions)
  {
    hide Ids, Sealed, Current, Limited, Proven, ChallengesBounded, SessionsBounded;
    ShrinkingKeepsIds(t1, t2);
    ShrinkingKeepsSealed(t1, t2);
    ShrinkingKeepsBounds(t1, t2);
    ShrinkingKeepsCurrent(t1, t2);
    if Proven(t1.factors, t1.codes, t1.sessions) {
      ShrinkingKeepsProven(t1, t2);
    }
  }

  lemma DropSessionsShrinks(t: Tables, gone: set<Id>)
    requires Ids(t)
    ensures Shrinks(t, DropSessions(t, gone))
  {
    assert forall c :: c in t.challenges ==> RefersTo(t.next, t.users.Keys, t.sessions.Keys, t.challenges[c]);
  }

  lemma DropChallengesShrinks(t: Tables, gone: set<Id>)
    requires Ids(t)
    ensures Shrinks(t, DropChallenges(t, gone))
  {
    assert forall c :: c in t.challenges ==> RefersTo(t.next, t.users.Keys, t.sessions.Keys, t.challenges[c]);
  }

  lemma DropSecretsShrinks(t: Tables, gone: set<Id>)
    requires Ids(t) && gone !! t.factors.Keys
    ensures Shrinks(t, DropSecrets(t, gone))
  {
    assert forall c :: c in t.challenges ==> RefersTo(t.next, t.users.Keys, t.sessions.Keys, t.challenges[c]);
  }

  lemma DropCodesShrinks(t: Tables, u: Id)
    requires Ids(t)
    ensures Shrinks(t, DropCodes(t, u))
  {
    assert forall c :: c in t.challenges ==> RefersTo(t.next, t.users.Keys, t.sessions.Keys, t.challenges[c]);
  }

  /** A write to one user's row under fresh identifiers. */
  lemma UserWriteShrinks(t: Tables, u: Id, row: User)
    requires Ids(t) && u in t.users && row.etag <= t.next
    requires row.mfaRevision == t.users[u].mfaRevision || row.mfaRevision == t.next
    ensures Shrinks(t, t.(next := t.next + 1, users := t.users[u := row]))
  {
    assert forall c :: c in t.challenges ==> RefersTo(t.next, t.users.Keys, t.sessions.Keys, t.challenges[c]);
  }

  // Statements that add a row.

  lemma SessionAdded(sessions: map<Id, Session>, s: Id, row: Session, v: Id)
    requires s !in sessions
    ensures SessionsOf(sessions[s := row], v) == if row.user == v then SessionsOf(sessions, v) + {s}
            else SessionsOf(sessions, v)
  {
  }

  lemma ChallengeAdded(challenges: map<Id, Challenge>, c: Id, row: Challenge, v: Id)
    requires c !in challenges
    ensures ChallengesOf(challenges[c := row], v) == if row.user == v then ChallengesOf(challenges, v) + {c}
            else ChallengesOf(challenges, v)
  {
  }

  lemma FactorAdded(factors: map<Id, Factor>, f: Id, row: Factor, v: Id)
    requires f !in factors
    ensures FactorsOf(factors[f := row], v) == if row.user == v then FactorsOf(factors, v) + {f}
            else FactorsOf(factors, v)
  {
  }

  /** Identifiers in use stay below a supply that has moved on. */
  lemma SupplyMovesOn(t: Tables, next: Id)
    requires Ids(t) && t.next <= next
    ensures Ids(t.(next := next))
  {
    assert forall c :: c in t.challenges ==> RefersTo(t.next, t.users.Keys, t.sessions.Keys, t.challenges[c]);
  }

  lemma AddSessionKeepsProven(t: Tables, u: Id, signIn: Kernel.SignIn, mfa: bool)
    requires u in t.users && Proven(t.factors, t.codes, t.sessions)
    requires signIn.Local? && mfa ==> FactorsOf(t.factors, u) != {}
    ensures Proven(t.factors, t.codes, AddSession(t, u, signIn, mfa).sessions)
  {
  }

  lemma AddSessionKeepsBounds(t: Tables, u: Id, signIn: Kernel.SignIn, mfa: bool)
    requires u in t.users && t.next !in t.sessions && SessionsBounded(t.sessions) && |SessionsOf(t.sessions, u)| <= 19
    ensures SessionsBounded(AddSession(t, u, signIn, mfa).sessions)
  {
    var t' := AddSession(t, u, signIn, mfa);
    forall v ensures |SessionsOf(t'.sessions, v)| <= 20 {
      SessionAdded(t.sessions, t.next, t'.sessions[t.next], v);
    }
  }

  lemma AddSessionKeepsIds(t: Tables, u: Id, signIn: Kernel.SignIn, mfa: bool)
    requires u in t.users && Ids(t)
    ensures Ids(AddSession(t, u, signIn, mfa)) && t.next !in t.sessions
  {
    assert forall c :: c in t.challenges ==> RefersTo(t.next, t.users.Keys, t.sessions.Keys, t.challenges[c]);
  }

  lemma AddSessionKeepsInv(t: Tables, u: Id, signIn: Kernel.SignIn, mfa: bool)
    requires Inv(t) && u in t.users && |SessionsOf(t.sessions, u)| <= 19
    requires signIn.Local? && mfa ==> FactorsOf(t.factors, u) != {}
    ensures Inv(AddSession(t, u, signIn, mfa))
  {
    hide Ids, Sealed, Current, Limited, Proven, ChallengesBounded, SessionsBounded;
    AddSessionKeepsIds(t, u, signIn, mfa);
    AddSessionKeepsBounds(t, u, signIn, mfa);
    AddSessionKeepsProven(t, u, signIn, mfa);
  }

  lemma NewSessionKeepsInv(t: Tables, u: Id, signIn: Kernel.SignIn, mfa: bool)
    requires Inv(t) && u in t.users
    requires signIn.Local? && mfa ==> FactorsOf(t.factors, u) != {}
    ensures Inv(NewSession(t, u, signIn, mfa))
  {
    hide Ids, Sealed, Current, Limited, Proven, ChallengesBounded, SessionsBounded;
    var gone := Surplus(SessionsOf(t.sessions, u), 19);
    var t1 := DropSessions(t, gone);
    DropSessionsShrinks(t, gone);
    ShrinkingKeepsInv(t, t1);
    assert SessionsOf(t1.sessions, u) == SessionsOf(t.sessions, u) - gone;
    SurplusLeaves(SessionsOf(t.sessions, u), 19);
    AddSessionKeepsInv(t1, u, signIn, mfa);
  }

  lemma AddSecretKeepsInv(t: Tables, expires: Option<Time>)
    requires Inv(t)
    ensures Inv(AddSecret(t, expires))
  {
    hide Current, Limited, Proven, ChallengesBounded, SessionsBounded;
    SupplyMovesOn(t, t.next + 1);
  }

  /** What must hold for a challenge to be issued. */
  predicate Issuable(t: Tables, u: Id, session: Option<Id>, purpose: Purpose, secret: Option<Id>) {
    && u in t.users
    && (session.Some? ==> session.value in t.sessions)
    && (secret.Some? ==> secret.value < t.next && secret.value !in t.factors && purpose.EnrollTotp?)
    && (forall c :: c in t.challenges && secret.Some? ==> t.challenges[c].secret != secret)
    && (purpose.EnrollTotp? ==> !HasTotp(t.factors, u))
    && (purpose.Login? || purpose.Manage? || purpose.Reauth? ==> FactorsOf(t.factors, u) != {})
  }

  lemma AddChallengeKeepsIds(t: Tables, u: Id, session: Option<Id>, purpose: Purpose, secret: Option<Id>,
      webauthn: bool)
    requires Ids(t) && Issuable(t, u, session, purpose, secret)
    ensures Ids(AddChallenge(t, u, session, purpose, secret, webauthn)) && t.next !in t.challenges
  {
    SupplyMovesOn(t, t.next + 1);
  }

  lemma AddChallengeKeepsFacts(t: Tables, u: Id, session: Option<Id>, purpose: Purpose, secret: Option<Id>,
      webauthn: bool)
    requires Issuable(t, u, session, purpose, secret) && t.next !in t.challenges
    requires Sealed(t.factors, t.secrets, t.challenges) && Current(t.users, t.factors, t.challenges)
    ensures var t' := AddChallenge(t, u, session, purpose, secret, webauthn);
            Sealed(t'.factors, t'.secrets, t'.challenges) && Current(t'.users, t'.factors, t'.challenges)
  {
  }

  lemma AddChallengeKeepsBounds(t: Tables, u: Id, session: Option<Id>, purpose: Purpose, secret: Option<Id>,
      webauthn: bool)
    requires u in t.users && t.next !in t.challenges && ChallengesBounded(t.challenges)
             && |ChallengesOf(t.challenges, u)| <= 7
    ensures ChallengesBounded(AddChallenge(t, u, session, purpose, secret, webauthn).challenges)
  {
    var t' := AddChallenge(t, u, session, purpose, secret, webauthn);
    forall v ensures |ChallengesOf(t'.challenges, v)| <= 8 {
      ChallengeAdded(t.challenges, t.next, t'.challenges[t.next], v);
    }
  }

  lemma PruneShrinks(t: Tables, u: Id)
    requires Ids(t)
    ensures Shrinks(t, Prune(t, u))
  {
    assert forall c :: c in t.challenges ==> RefersTo(t.next, t.users.Keys, t.sessions.Keys, t.challenges[c]);
    assert StaleSecrets(t, u) !! t.factors.Keys;
  }

  lemma PruneLeavesSeven(t: Tables, u: Id)
    ensures |ChallengesOf(Prune(t, u).challenges, u)| <= 7
  {
    var ids := ChallengesOf(t.challenges, u);
    SurplusLeaves(ids, 7);
    SubsetSize(ChallengesOf(Prune(t, u).challenges, u), ids - Surplus(ids, 7));
  }

  lemma StoreFlowKeepsInv(t: Tables, u: Id, session: Option<Id>, purpose: Purpose, secret: Option<Id>, webauthn: bool)
    requires Inv(t) && Issuable(t, u, session, purpose, secret)
    ensures Inv(StoreFlow(t, u, session, purpose, secret, webauthn))
  {
    hide Ids, Sealed, Current, Limited, Proven, ChallengesBounded, SessionsBounded, ChallengesOf;
    var t1 := Prune(t, u);
    PruneShrinks(t, u);
    PruneLeavesSeven(t, u);
    ShrinkingKeepsInv(t, t1);
    AddChallengeKeepsIds(t1, u, session, purpose, secret, webauthn);
    AddChallengeKeepsFacts(t1, u, session, purpose, secret, webauthn);
    AddChallengeKeepsBounds(t1, u, session, purpose, secret, webauthn);
  }

  lemma ReplaceCodesKeepsIds(t: Tables, u: Id)
    requires Ids(t) && u in t.users
    ensures Ids(ReplaceCodes(t, u))
  {
    hide NewCodes, UserIds, SessionIds, FactorIds, SecretIds, ChallengeIds;
    SupplyMovesOn(t, t.next + RECOVERY_CODES);
    CodesAreDrawn(t, u);
  }

  lemma CodesAreDrawn(t: Tables, u: Id)
    ensures forall d :: d in ReplaceCodes(t, u).codes ==>
              (d in t.codes && ReplaceCodes(t, u).codes[d] == t.codes[d])
                || (d < t.next + RECOVERY_CODES && ReplaceCodes(t, u).codes[d] == u)
  {
  }

  lemma ReplaceCodesKeepsProven(t: Tables, u: Id)
    requires Proven(t.factors, t.codes, t.sessions) && FactorsOf(t.factors, u) != {}
    ensures Proven(t.factors, ReplaceCodes(t, u).codes, t.sessions)
  {
    hide FactorsOf, Drawn;
  }

  lemma ReplaceCodesKeepsInv(t: Tables, u: Id)
    requires Inv(t) && u in t.users && FactorsOf(t.factors, u) != {}
    ensures Inv(ReplaceCodes(t, u))
  {
    hide Ids, Sealed, Current, Limited, Proven, ChallengesBounded, SessionsBounded;
    ReplaceCodesKeepsIds(t, u);
    ReplaceCodesKeepsProven(t, u);
  }

  // Statements that change factors.

  /** A factor may be added when its id is new, no other enrolment is waiting
      for that id, and the limits leave room. */
  predicate Addable(t: Tables, f: Id, u: Id, kind: Kind) {
    && u in t.users && f < t.next && f !in t.factors
    && (forall c :: c in t.challenges ==> t.challenges[c].secret != Some(f))
    && |FactorsOf(t.factors, u)| < MAX_FACTORS
    && (kind.Totp? ==> !HasTotp(t.factors, u))
  }

  lemma AddFactorKeepsLimits(factors: map<Id, Factor>, f: Id, row: Factor)
    requires Limited(factors) && f !in factors && |FactorsOf(factors, row.user)| < MAX_FACTORS
    requires row.kind.Totp? ==> !HasTotp(factors, row.user)
    ensures Limited(factors[f := row])
  {
    var factors' := factors[f := row];
    forall v ensures |FactorsOf(factors', v)| <= MAX_FACTORS {
      FactorAdded(factors, f, row, v);
    }
    forall g, h | g in factors' && h in factors' && factors'[g].kind.Totp? && factors'[h].kind.Totp?
      && factors'[g].user == factors'[h].user
      ensures g == h
    {
    }
  }

  /** Once a user's revision is fresh, no challenge of that user is current, so
      the facts behind the others' challenges are all that must still hold. */
  lemma FreshRevisionKeepsCurrent(t: Tables, u: Id, factors: map<Id, Factor>)
    requires Ids(t) && u in t.users && Current(t.users, t.factors, t.challenges)
    requires forall v :: v != u ==> (HasTotp(factors, v) ==> HasTotp(t.factors, v))
    requires forall v :: v != u ==> (FactorsOf(t.factors, v) != {} ==> FactorsOf(factors, v) != {})
    ensures Current(FreshRevision(t, u).users, factors, t.challenges)
  {
    hide FactorsOf, HasTotp;
    forall c | c in t.challenges
      && IsCurrent(FreshRevision(t, u).users, t.challenges[c]) ensures Founded(factors, t.challenges[c]) {
      assert RefersTo(t.next, t.users.Keys, t.sessions.Keys, t.challenges[c]);
      assert IsCurrent(t.users, t.challenges[c]);
    }
  }

  lemma AddFactorKeepsIds(t: Tables, f: Id, u: Id, kind: Kind, counter: int)
    requires Ids(t) && u in t.users && f < t.next
    ensures Ids(AddFactor(t, f, u, kind, counter))
  {
    SupplyMovesOn(t, t.next + 1);
  }

  lemma AddFactorKeepsRest(t: Tables, f: Id, u: Id, kind: Kind, counter: int)
    requires Inv(t) && Addable(t, f, u, kind)
    ensures var t' := AddFactor(t, f, u, kind, counter);
            && Sealed(t'.factors, t'.secrets, t'.challenges) && Proven(t'.factors, t'.codes, t'.sessions)
            && FactorsOf(t'.factors, u) != {}
  {
    hide Ids, Current, Limited, ChallengesBounded, SessionsBounded;
    var t' := AddFactor(t, f, u, kind, counter);
    forall v ensures FactorsOf(t.factors, v) <= FactorsOf(t'.factors, v) {}
    assert f in FactorsOf(t'.factors, u);
  }

  lemma AddFactorKeepsInv(t: Tables, f: Id, u: Id, kind: Kind, counter: int)
    requires Inv(t) && Addable(t, f, u, kind)
    ensures Inv(AddFactor(t, f, u, kind, counter)) && FactorsOf(AddFactor(t, f, u, kind, counter).factors, u) != {}
  {
    hide Ids, Sealed, Current, Limited, Proven, ChallengesBounded, SessionsBounded;
    var t' := AddFactor(t, f, u, kind, counter);
    AddFactorKeepsIds(t, f, u, kind, counter);
    AddFactorKeepsLimits(t.factors, f, Factor(u, kind, counter));
    AddFactorKeepsRest(t, f, u, kind, counter);
    forall v ensures FactorsOf(t.factors, v) <= FactorsOf(t'.factors, v) {}
    FreshRevisionKeepsCurrent(t, u, t'.factors);
  }

  lemma RemovingKeepsLimits(factors: map<Id, Factor>, u: Id, gone: set<Id>)
    requires Limited(factors) && gone <= FactorsOf(factors, u)
    ensures Limited(factors - gone)
    ensures forall v :: v != u ==> FactorsOf(factors - gone, v) == FactorsOf(factors, v)
  {
    forall v ensures |FactorsOf(factors - gone, v)| <= MAX_FACTORS {
      SubsetSize(FactorsOf(factors - gone, v), FactorsOf(factors, v));
    }
  }

  lemma RemovingKeepsIds(t: Tables, u: Id, gone: set<Id>)
    requires Ids(t) && u in t.users
    ensures Ids(FreshRevision(t.(factors := t.factors - gone), u))
  {
    hide SessionIds, CodeIds, SecretIds, ChallengeIds;
    SupplyMovesOn(t, t.next + 1);
    assert FreshRevision(t, u).users.Keys == t.users.Keys;
  }

  /** Removing factors with a fresh revision keeps all but Proven. */
  lemma RemovingKeepsBase(t: Tables, u: Id, gone: set<Id>)
    requires Base(t) && u in t.users && gone <= FactorsOf(t.factors, u)
    ensures Base(FreshRevision(t.(factors := t.factors - gone), u))
  {
    hide Ids, Limited, ChallengesBounded, SessionsBounded, Current;
    RemovingKeepsIds(t, u, gone);
    RemovingKeepsLimits(t.factors, u, gone);
    FreshRevisionKeepsCurrent(t, u, t.factors - gone);
  }
}
