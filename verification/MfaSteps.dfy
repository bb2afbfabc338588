/** Every handler keeps the invariant of the MFA tables. */
module MfaSteps {
  import opened Common
  import opened Kernel
  import opened Mfa
  import opened MfaInvariants

  lemma ChallengedKeepsInv(t: Tables, u: Id, purpose: Purpose, session: Option<Id>, origin: bool)
    requires Inv(t) && Usable(t, u) && !purpose.EnrollTotp?
    requires session.Some? ==> session.value in t.sessions
    requires purpose.Login? || purpose.Manage? || purpose.Reauth? ==> FactorsOf(t.factors, u) != {}
    ensures Inv(Challenged(t, u, purpose, session, origin).0)
  {
    hide Inv, StoreFlow, FactorsOf, HasTotp, HasKey, HasCode;
    StoreFlowKeepsInv(t, u, session, purpose, None, HasKey(t.factors, u) && origin);
  }

  lemma LocalSessionKeepsInv(t: Tables, u: Id, origin: bool)
    requires Inv(t)
    ensures Inv(LocalSession(t, u, origin).0)
  {
    hide Inv, NewSession, Challenged, FactorsOf;
    if t.localLogin && Usable(t, u) {
      if FactorsOf(t.factors, u) != {} {
        ChallengedKeepsInv(t, u, Login, None, origin);
      } else if t.mfaRequired {
        ChallengedKeepsInv(t, u, Bootstrap, None, origin);
      } else {
        NewSessionKeepsInv(t, u, Local, false);
      }
    }
  }

  lemma SessionChallengeKeepsInv(t: Tables, s: Id, purpose: Purpose, origin: bool)
    requires Inv(t)
    ensures Inv(SessionChallenge(t, s, purpose, origin).0)
  {
    hide Inv, Challenged, FactorsOf;
    if Authentic(t, s) && (purpose.Manage? || purpose.Reauth?) && FactorsOf(t.factors, t.sessions[s].user) != {} {
      ChallengedKeepsInv(t, t.sessions[s].user, purpose, Some(s), origin);
    }
  }

  lemma DropChallengesKeepsInv(t: Tables, gone: set<Id>)
    requires Inv(t)
    ensures Inv(DropChallenges(t, gone))
  {
    hide Ids, Sealed, Current, Limited, Proven, ChallengesBounded, SessionsBounded, Shrinks;
    DropChallengesShrinks(t, gone);
    ShrinkingKeepsInv(t, DropChallenges(t, gone));
  }

  lemma DropSessionsKeepsInv(t: Tables, gone: set<Id>)
    requires Inv(t)
    ensures Inv(DropSessions(t, gone))
  {
    hide Ids, Sealed, Current, Limited, Proven, ChallengesBounded, SessionsBounded, Shrinks;
    DropSessionsShrinks(t, gone);
    ShrinkingKeepsInv(t, DropSessions(t, gone));
  }

  /** A new secret's id belongs to no factor and to no enrolment. */
  lemma NewSecretIsUnclaimed(t: Tables)
    requires Ids(t)
    ensures t.next !in t.factors && forall c :: c in t.challenges ==> t.challenges[c].secret != Some(t.next)
  {
    assert forall c :: c in t.challenges ==> RefersTo(t.next, t.users.Keys, t.sessions.Keys, t.challenges[c]);
  }

  lemma BeginTotpKeepsInv(t: Tables, u: Id, session: Option<Id>)
    requires Inv(t) && u in t.users && !HasTotp(t.factors, u)
    requires session.Some? ==> session.value in t.sessions
    ensures Inv(StoreFlow(AddSecret(t, Some(t.now + MFA_TTL)), u, session, EnrollTotp, Some(t.next), false))
  {
    hide Ids, Sealed, Current, Limited, Proven, ChallengesBounded, SessionsBounded, StoreFlow, HasTotp, FactorsOf;
    var t1 := AddSecret(t, Some(t.now + MFA_TTL));
    AddSecretKeepsInv(t, Some(t.now + MFA_TTL));
    NewSecretIsUnclaimed(t);
    StoreFlowKeepsInv(t1, u, session, EnrollTotp, Some(t.next), false);
  }

  lemma BeginEnrollmentKeepsInv(t: Tables, who: Enroller, kind: Kind, origin: bool)
    requires Inv(t)
    ensures Inv(BeginEnrollment(t, who, kind, origin).0)
  {
    hide Inv, StoreFlow, AddSecret, FactorsOf, HasTotp;
    if MayEnroll(t, who) {
      var u := if who.ByChallenge? then t.challenges[who.c].user else t.sessions[who.s].user;
      var session := if who.ByChallenge? then None else Some(who.s);
      var t1 := if who.ByChallenge? then DropChallenges(t, {who.c}) else t;
      if who.ByChallenge? {
        DropChallengesKeepsInv(t, {who.c});
      }
      if |FactorsOf(t.factors, u)| >= MAX_FACTORS || (kind.Totp? && HasTotp(t.factors, u)) {
      } else if kind.Totp? {
        BeginTotpKeepsInv(t1, u, session);
      } else {
        StoreFlowKeepsInv(t1, u, session, EnrollWebAuthn, None, true);
      }
    }
  }

  // Checking a proof.

  /** The challenges after a wrong answer to one of them. */
  function Missed(challenges: map<Id, Challenge>, c: Id): map<Id, Challenge>
    requires c in challenges
  {
    challenges[c := challenges[c].(attempts := challenges[c].attempts + 1)]
  }

  lemma FailureKeepsBounds(challenges: map<Id, Challenge>, c: Id)
    requires c in challenges && challenges[c].attempts < MAX_ATTEMPTS && ChallengesBounded(challenges)
    ensures ChallengesBounded(Missed(challenges, c))
  {
    forall u ensures |ChallengesOf(Missed(challenges, c), u)| <= 8 {
      assert ChallengesOf(Missed(challenges, c), u) == ChallengesOf(challenges, u);
    }
  }

  lemma FailureKeepsFacts(t: Tables, c: Id)
    requires c in t.challenges && Sealed(t.factors, t.secrets, t.challenges)
             && Current(t.users, t.factors, t.challenges)
    ensures Sealed(t.factors, t.secrets, Missed(t.challenges, c))
            && Current(t.users, t.factors, Missed(t.challenges, c))
  {
    hide FactorsOf, HasTotp;
  }

  lemma FailureKeepsIds(t: Tables, c: Id)
    requires c in t.challenges && Ids(t)
    ensures Ids(t.(challenges := Missed(t.challenges, c)))
  {
    hide UserIds, SessionIds, FactorIds, CodeIds, SecretIds;
  }

  lemma FailureKeepsInv(t: Tables, c: Id)
    requires Inv(t) && c in t.challenges && t.challenges[c].attempts < MAX_ATTEMPTS
    ensures Inv(t.(challenges := t.challenges[c := t.challenges[c].(attempts := t.challenges[c].attempts + 1)]))
  {
    hide Ids, Sealed, Current, Limited, Proven, ChallengesBounded, SessionsBounded;
    FailureKeepsBounds(t.challenges, c);
    FailureKeepsFacts(t, c);
    FailureKeepsIds(t, c);
  }

  /** The same factors, but for the counters they last accepted. */
  predicate Recounted(factors: map<Id, Factor>, factors': map<Id, Factor>) {
    && factors'.Keys == factors.Keys
    && forall f :: f in factors ==> factors'[f].user == factors[f].user && factors'[f].kind == factors[f].kind
  }

  lemma RecountedOwners(factors: map<Id, Factor>, factors': map<Id, Factor>)
    requires Recounted(factors, factors')
    ensures forall u :: FactorsOf(factors', u) == FactorsOf(factors, u)
    ensures forall u :: HasTotp(factors', u) ==> HasTotp(factors, u)
  {
    forall u ensures FactorsOf(factors', u) == FactorsOf(factors, u) {
      assert forall f :: f in FactorsOf(factors', u) <==> f in FactorsOf(factors, u);
    }
    forall u | HasTotp(factors', u) ensures HasTotp(factors, u) {
      var f :| f in factors' && factors'[f].user == u && factors'[f].kind.Totp?;
      assert f in factors;
    }
  }

  lemma RecountingKeepsLimits(factors: map<Id, Factor>, factors': map<Id, Factor>)
    requires Recounted(factors, factors') && Limited(factors)
    ensures Limited(factors')
  {
    RecountedOwners(factors, factors');
  }

  lemma RecountingKeepsFacts(t: Tables, factors': map<Id, Factor>)
    requires Recounted(t.factors, factors') && Inv(t)
    ensures Current(t.users, factors', t.challenges) && Proven(factors', t.codes, t.sessions)
  {
    hide Ids, Sealed, Limited, ChallengesBounded, SessionsBounded, FactorsOf, HasTotp;
    RecountedOwners(t.factors, factors');
  }

  lemma RecountingKeepsInv(t: Tables, factors': map<Id, Factor>)
    requires Recounted(t.factors, factors') && Inv(t)
    ensures Inv(t.(factors := factors'))
  {
    hide ChallengesBounded, SessionsBounded, UserIds, SessionIds, CodeIds, SecretIds, ChallengeIds, Limited, Current,
      Proven;
    RecountingKeepsLimits(t.factors, factors');
    RecountingKeepsFacts(t, factors');
  }

  lemma SpendKeepsInv(t: Tables, ch: Challenge, proof: Proof)
    requires Inv(t) && Proves(t, ch, proof) && !ch.purpose.EnrollTotp? && !ch.purpose.EnrollWebAuthn?
    ensures Inv(Spend(t, proof)) && FactorsOf(Spend(t, proof).factors, ch.user) == FactorsOf(t.factors, ch.user)
    ensures Spend(t, proof).users == t.users
  {
    hide Ids, Sealed, Current, Limited, Proven, ChallengesBounded, SessionsBounded, FactorsOf;
    match proof
    case TotpCode(f, counter) =>
      RecountingKeepsInv(t, Spend(t, proof).factors);
      RecountedOwners(t.factors, Spend(t, proof).factors);
    case RecoveryCode(d) =>
      SpendingCodeShrinks(t, d);
      ShrinkingKeepsInv(t, Spend(t, proof));
    case Assertion(f, _) =>
      assert Spend(t, proof).secrets == t.secrets by { FactorSecretIsKept(t, f); }
  }

  lemma SpendingCodeShrinks(t: Tables, d: Id)
    requires Ids(t)
    ensures Shrinks(t, t.(codes := t.codes - {d}))
  {
    assert forall c :: c in t.challenges ==> RefersTo(t.next, t.users.Keys, t.sessions.Keys, t.challenges[c]);
  }

  lemma FactorSecretIsKept(t: Tables, f: Id)
    requires Sealed(t.factors, t.secrets, t.challenges) && f in t.factors
    ensures t.secrets[f := Secret(None)] == t.secrets
  {
  }

  // Activating a factor.

  /** A loadable enrolment may add its factor: the matching revision says that
      no factor was added since the check at its start. */
  lemma EnrolmentIsAddable(t: Tables, c: Id, proof: Proof)
    requires Base(t) && Enrolling(t, c, proof) && IsCurrent(t.users, t.challenges[c])
    requires t.challenges[c].purpose.EnrollTotp? && |FactorsOf(t.factors, t.challenges[c].user)| < MAX_FACTORS
    ensures Addable(DropChallenges(t, {c}), NewFactor(t, c), t.challenges[c].user, Totp)
  {
    hide Limited, ChallengesBounded, SessionsBounded, UserIds, SessionIds, FactorIds, CodeIds, SecretIds, FactorsOf;
    assert RefersTo(t.next, t.users.Keys, t.sessions.Keys, t.challenges[c]);
    assert Founded(t.factors, t.challenges[c]);
  }

  lemma NewKeyIsAddable(t: Tables, u: Id)
    requires Ids(t) && u in t.users && |FactorsOf(t.factors, u)| < MAX_FACTORS
    ensures Addable(AddSecret(t, None), t.next, u, WebAuthn)
  {
    NewSecretIsUnclaimed(t);
  }

  lemma ActivatedKeepsInv(t: Tables, c: Id, proof: Proof)
    requires Inv(t) && Enrolling(t, c, proof) && IsCurrent(t.users, t.challenges[c])
    requires t.challenges[c].purpose.EnrollTotp? || t.challenges[c].purpose.EnrollWebAuthn?
    requires |FactorsOf(t.factors, t.challenges[c].user)| < MAX_FACTORS
    ensures Inv(Activated(t, c, proof)) && FactorsOf(Activated(t, c, proof).factors, t.challenges[c].user) != {}
  {
    hide Ids, Sealed, Current, Limited, Proven, ChallengesBounded, SessionsBounded, FactorsOf, Addable;
    var ch := t.challenges[c];
    var totp := ch.purpose.EnrollTotp?;
    var t0 := DropChallenges(t, {c});
    DropChallengesKeepsInv(t, {c});
    var t1 := if totp then t0 else AddSecret(t0, None);
    var f := NewFactor(t, c);
    if totp {
      EnrolmentIsAddable(t, c, proof);
    } else {
      AddSecretKeepsInv(t0, None);
      NewKeyIsAddable(t0, ch.user);
    }
    AddFactorKeepsInv(t1, f, ch.user, if totp then Totp else WebAuthn, if totp then proof.counter else 0);
    if FactorsOf(t.factors, ch.user) == {} {
      ReplaceCodesKeepsInv(AddFactor(t1, f, ch.user, if totp then Totp else WebAuthn, if totp then proof.counter
        else 0), ch.user);
    }
  }

  lemma ActivateKeepsInv(t: Tables, c: Id, proof: Proof)
    requires Inv(t) && Enrolling(t, c, proof) && IsCurrent(t.users, t.challenges[c])
    requires t.challenges[c].purpose.EnrollTotp? || t.challenges[c].purpose.EnrollWebAuthn?
    requires |FactorsOf(t.factors, t.challenges[c].user)| < MAX_FACTORS
    ensures Inv(Activate(t, c, proof).0)
  {
    hide Inv, Activated, NewSession, FactorsOf;
    var ch := t.challenges[c];
    ActivatedKeepsInv(t, c, proof);
    var t1 := Activated(t, c, proof);
    if ch.session.None? {
      NewSessionKeepsInv(t1, ch.user, Local, true);
    } else {
      DropSessionsKeepsInv(t1, SessionsOf(t1.sessions, ch.user));
      NewSessionKeepsInv(DropSessions(t1, SessionsOf(t1.sessions, ch.user)), ch.user,
        t.sessions[ch.session.value].signIn, true);
    }
  }

  lemma LoadableEnrols(t: Tables, c: Id, proof: Proof, caller: Option<Id>)
    requires Loadable(t, c, caller) && Proves(t, t.challenges[c], proof)
    ensures Enrolling(t, c, proof) && IsCurrent(t.users, t.challenges[c])
  {
  }

  lemma SignInBySecondFactorKeepsInv(t: Tables, c: Id, proof: Proof)
    requires Inv(t) && c in t.challenges && Proves(t, t.challenges[c], proof) && IsCurrent(t.users, t.challenges[c])
    requires !t.challenges[c].purpose.EnrollTotp? && !t.challenges[c].purpose.EnrollWebAuthn?
    ensures Inv(DropChallenges(Spend(t, proof), {c}))
    ensures t.challenges[c].purpose.Login? ==>
              Inv(NewSession(DropChallenges(Spend(t, proof), {c}), t.challenges[c].user, Local, true))
  {
    hide Ids, Sealed, Limited, Proven, ChallengesBounded, SessionsBounded, FactorsOf, NewSession, Spend, Proves;
    SpendKeepsInv(t, t.challenges[c], proof);
    DropChallengesKeepsInv(Spend(t, proof), {c});
    if t.challenges[c].purpose.Login? {
      assert Founded(t.factors, t.challenges[c]);
      NewSessionKeepsInv(DropChallenges(Spend(t, proof), {c}), t.challenges[c].user, Local, true);
    }
  }

  lemma VerifyKeepsInv(t: Tables, c: Id, proof: Proof, caller: Option<Id>)
    requires Inv(t)
    ensures Inv(Verify(t, c, proof, caller).0)
  {
    hide Inv, Proves, Unreadable, Activate, NewSession, Spend, FactorsOf;
    if Loadable(t, c, caller) && !t.challenges[c].purpose.Bootstrap? {
      var ch := t.challenges[c];
      if !Proves(t, ch, proof) {
        FailureKeepsInv(t, c);
      } else {
        LoadableEnrols(t, c, proof, caller);
        if ch.purpose.EnrollTotp? || ch.purpose.EnrollWebAuthn? {
          if |FactorsOf(t.factors, ch.user)| < MAX_FACTORS {
            ActivateKeepsInv(t, c, proof);
          }
        } else {
          SignInBySecondFactorKeepsInv(t, c, proof);
        }
      }
    }
  }

  // Removing factors.

  /** Proven, for every user but one. */
  predicate ProvenBeside(u: Id, factors: map<Id, Factor>, codes: map<Id, Id>, sessions: map<Id, Session>) {
    && (forall d :: d in codes && codes[d] != u ==> FactorsOf(factors, codes[d]) != {})
    && (forall s :: s in sessions && sessions[s].user != u && sessions[s].signIn.Local? && sessions[s].mfa ==>
          FactorsOf(factors, sessions[s].user) != {})
  }

  lemma UnverifyKeepsSessions(t: Tables, u: Id)
    requires SessionsBounded(t.sessions)
    ensures SessionsBounded(Unverify(t, u).sessions)
  {
    var t' := Unverify(t, u);
    forall v ensures |SessionsOf(t'.sessions, v)| <= 20 {
      assert SessionsOf(t'.sessions, v) == SessionsOf(t.sessions, v);
    }
  }

  lemma UnverifyProves(t: Tables, u: Id)
    requires ProvenBeside(u, t.factors, t.codes, t.sessions)
    ensures var t' := Unverify(t, u); Proven(t'.factors, t'.codes, t'.sessions)
  {
    hide FactorsOf;
  }

  lemma UnverifyKeepsIds(t: Tables, u: Id)
    requires Ids(t)
    ensures Ids(Unverify(t, u))
  {
    hide UserIds, FactorIds, SecretIds, ChallengeIds;
    assert Unverify(t, u).sessions.Keys == t.sessions.Keys;
  }

  lemma UnverifyKeepsInv(t: Tables, u: Id)
    requires Base(t) && ProvenBeside(u, t.factors, t.codes, t.sessions)
    ensures Inv(Unverify(t, u))
  {
    hide Ids, Sealed, Current, Limited, Proven, ProvenBeside, ChallengesBounded, SessionsBounded;
    UnverifyKeepsSessions(t, u);
    UnverifyProves(t, u);
    UnverifyKeepsIds(t, u);
  }

  lemma RemoveFactorKeepsBase(t: Tables, f: Id)
    requires Base(t) && f in t.factors && t.factors[f].user in t.users
    ensures Base(RemoveFactor(t, f))
  {
    hide Ids, Sealed, Current, Limited, ChallengesBounded, SessionsBounded, Shrinks;
    var u := t.factors[f].user;
    var t1 := FreshRevision(t.(factors := t.factors - {f}), u);
    RemovingKeepsBase(t, u, {f});
    DropSecretsShrinks(t1, {f});
    ShrinkingKeepsInv(t1, DropSecrets(t1, {f}));
    assert RemoveFactor(t, f) == DropSecrets(t1, {f});
  }

  lemma RemoveFactorKeepsProven(t: Tables, f: Id)
    requires f in t.factors && t.factors[f].user in t.users && Proven(t.factors, t.codes, t.sessions)
    ensures var t' := RemoveFactor(t, f);
            && ProvenBeside(t.factors[f].user, t'.factors, t'.codes, t'.sessions)
            && (FactorsOf(t'.factors, t.factors[f].user) != {} ==> Proven(t'.factors, t'.codes, t'.sessions))
  {
    var t' := RemoveFactor(t, f);
    var u := t.factors[f].user;
    forall v | v != u ensures FactorsOf(t'.factors, v) == FactorsOf(t.factors, v) {
    }
    hide FactorsOf;
  }

  /** The factor that is not the last leaves another behind. */
  lemma AnotherRemains(t: Tables, f: Id)
    requires f in t.factors && t.factors[f].user in t.users && |FactorsOf(t.factors, t.factors[f].user)| > 1
    ensures FactorsOf(RemoveFactor(t, f).factors, t.factors[f].user) != {}
  {
    var u := t.factors[f].user;
    assert FactorsOf(t.factors, u) != {f};
    var g :| g in FactorsOf(t.factors, u) && g != f;
    assert g in FactorsOf(RemoveFactor(t, f).factors, u);
  }

  lemma RemoveKeepsInv(t: Tables, s: Id, f: Id, ifMatch: Id, recent: bool)
    requires Inv(t)
    ensures Inv(Remove(t, s, f, ifMatch, recent).0)
  {
    hide Base, Proven, ProvenBeside, FactorsOf, RemoveFactor, Unverify, DropSessions;
    if Authentic(t, s) && recent {
      var u := t.sessions[s].user;
      var last := |FactorsOf(t.factors, u)| <= 1;
      if !(ifMatch != t.users[u].mfaRevision || (t.mfaRequired && last) || f !in t.factors || t.factors[f].user != u) {
        var t1 := RemoveFactor(t, f);
        RemoveFactorKeepsBase(t, f);
        RemoveFactorKeepsProven(t, f);
        if last {
          UnverifyKeepsInv(t1, u);
        } else {
          AnotherRemains(t, f);
        }
        var t2 := if last then Unverify(t1, u) else t1;
        DropSessionsKeepsInv(t2, SessionsOf(t2.sessions, u) - {s});
      }
    }
  }

  lemma FreshRevisionKeepsInv(t: Tables, u: Id)
    requires Inv(t) && u in t.users
    ensures Inv(FreshRevision(t, u))
  {
    hide Sealed, Current, Limited, Proven, ChallengesBounded, SessionsBounded, Shrinks;
    UserWriteShrinks(t, u, t.users[u].(mfaRevision := t.next));
    ShrinkingKeepsInv(t, FreshRevision(t, u));
  }

  lemma RotateCodesKeepsInv(t: Tables, s: Id, ifMatch: Id, recent: bool)
    requires Inv(t)
    ensures Inv(RotateCodes(t, s, ifMatch, recent).0)
  {
    hide Inv, FactorsOf, FreshRevision;
    if Authentic(t, s) && recent {
      var u := t.sessions[s].user;
      if ifMatch == t.users[u].mfaRevision && FactorsOf(t.factors, u) != {} {
        ReplaceCodesKeepsInv(t, u);
        FreshRevisionKeepsInv(ReplaceCodes(t, u), u);
      }
    }
  }

  lemma ChangeUserKeepsInv(t: Tables, u: Id, row: User, keepSessions: bool)
    requires Inv(t) && u in t.users
    ensures Inv(ChangeUser(t, u, row, keepSessions))
  {
    hide Ids, Sealed, Current, Limited, Proven, ChallengesBounded, SessionsBounded, Shrinks;
    var row' := row.(etag := t.next, mfaRevision := t.users[u].mfaRevision);
    var t1 := t.(next := t.next + 1, users := t.users[u := row']);
    UserWriteShrinks(t, u, row');
    ShrinkingKeepsInv(t, t1);
    DropSessionsKeepsInv(t1, SessionsOf(t1.sessions, u));
  }

  lemma DropCodesKeepsInv(t: Tables, u: Id)
    requires Inv(t)
    ensures Inv(DropCodes(t, u))
  {
    hide Ids, Sealed, Current, Limited, Proven, ChallengesBounded, SessionsBounded, Shrinks;
    DropCodesShrinks(t, u);
    ShrinkingKeepsInv(t, DropCodes(t, u));
  }

  /** The reset of MFA in RecoverPassword, up to deleting the collected secrets. */
  function Stripped(t: Tables, u: Id): Tables
    requires u in t.users
  {
    var t2 := DropCodes(DropChallenges(t, ChallengesOf(t.challenges, u)), u);
    FreshRevision(t2.(factors := t2.factors - FactorsOf(t2.factors, u)), u)
  }

  lemma StrippedIsProven(t: Tables, u: Id)
    requires u in t.users && Proven(t.factors, t.codes, t.sessions) && SessionsOf(t.sessions, u) == {}
    ensures var t' := Stripped(t, u); Proven(t'.factors, t'.codes, t'.sessions)
  {
    var t' := Stripped(t, u);
    forall v | v != u ensures FactorsOf(t'.factors, v) == FactorsOf(t.factors, v) {
    }
    forall s | s in t'.sessions ensures t'.sessions[s].user != u {
      assert s !in SessionsOf(t.sessions, u);
    }
    hide FactorsOf;
  }

  lemma StrippedKeepsInv(t: Tables, u: Id)
    requires Inv(t) && u in t.users && SessionsOf(t.sessions, u) == {}
    ensures Inv(Stripped(t, u))
  {
    hide Ids, Sealed, Current, Limited, Proven, ChallengesBounded, SessionsBounded, FactorsOf;
    DropChallengesKeepsInv(t, ChallengesOf(t.challenges, u));
    var t2 := DropCodes(DropChallenges(t, ChallengesOf(t.challenges, u)), u);
    DropCodesKeepsInv(DropChallenges(t, ChallengesOf(t.challenges, u)), u);
    RemovingKeepsBase(t2, u, FactorsOf(t2.factors, u));
    StrippedIsProven(t, u);
  }

  /** What the reset collects belongs to no factor that stays. */
  lemma CollectedAreUnclaimed(t: Tables, u: Id)
    requires u in t.users && Sealed(t.factors, t.secrets, t.challenges)
    ensures OwnedSecrets(t, u) !! Stripped(t, u).factors.Keys
  {
  }

  lemma RecoverKeepsInv(t: Tables, u: Id, reset: bool)
    requires Inv(t)
    ensures Inv(Recover(t, u, reset).0)
  {
    hide Ids, Sealed, Current, Limited, Proven, ChallengesBounded, SessionsBounded, FactorsOf, Shrinks, OwnedSecrets;
    if u in t.users && t.users[u].active {
      var t1 := ChangeUser(t, u, t.users[u].(password := true), false);
      ChangeUserKeepsInv(t, u, t.users[u].(password := true), false);
      if reset {
        assert SessionsOf(t1.sessions, u) == {};
        StrippedKeepsInv(t1, u);
        CollectedAreUnclaimed(t1, u);
        var t3 := Stripped(t1, u);
        DropSecretsShrinks(t3, OwnedSecrets(t1, u));
        ShrinkingKeepsInv(t3, DropSecrets(t3, OwnedSecrets(t1, u)));
      }
    }
  }

  // The rest of the system.

  lemma RotateSessionKeepsInv(t: Tables, s: Id)
    requires Inv(t) && s in t.sessions && t.sessions[s].user in t.users
    ensures Inv(RotateSession(t, s))
  {
    hide Ids, Sealed, Current, Limited, ChallengesBounded, SessionsBounded, FactorsOf, NewSession;
    var asked := t.sessions[s];
    ChangeUserKeepsInv(t, asked.user, t.users[asked.user], false);
    NewSessionKeepsInv(ChangeUser(t, asked.user, t.users[asked.user], false), asked.user, asked.signIn, asked.mfa);
  }

  lemma JoinKeepsIds(t: Tables, row: User)
    requires Ids(t)
    ensures Ids(t.(next := t.next + 3, users := t.users[t.next := row.(etag := t.next + 1, mfaRevision := t.next + 2)]))
  {
    SupplyMovesOn(t, t.next + 3);
  }

  lemma JoinKeepsInv(t: Tables, row: User)
    requires Inv(t)
    ensures Inv(Step(t, Join(row)).0)
  {
    hide Sealed, Limited, Proven, ChallengesBounded, SessionsBounded, Founded, FactorsOf, UserIds, SessionIds,
      FactorIds, CodeIds, SecretIds;
    JoinKeepsIds(t, row);
    var users := t.users[t.next := row.(etag := t.next + 1, mfaRevision := t.next + 2)];
    forall c | c in t.challenges && IsCurrent(users, t.challenges[c]) ensures Founded(t.factors, t.challenges[c]) {
      assert RefersTo(t.next, t.users.Keys, t.sessions.Keys, t.challenges[c]);
      assert IsCurrent(t.users, t.challenges[c]);
    }
  }

  lemma SweepKeepsInv(t: Tables, sessions: set<Id>, challenges: set<Id>, secrets: set<Id>)
    requires Inv(t) && forall x :: x in secrets && x in t.secrets ==> t.secrets[x].expires.Some?
    ensures Inv(DropSecrets(DropChallenges(DropSessions(t, sessions), challenges), secrets))
  {
    hide Ids, Current, Limited, Proven, ChallengesBounded, SessionsBounded, Shrinks;
    var t2 := DropChallenges(DropSessions(t, sessions), challenges);
    DropSessionsKeepsInv(t, sessions);
    DropChallengesKeepsInv(DropSessions(t, sessions), challenges);
    assert secrets !! t2.factors.Keys;
    DropSecretsShrinks(t2, secrets);
    ShrinkingKeepsInv(t2, DropSecrets(t2, secrets));
  }

  lemma EnvironmentKeepsInv(t: Tables, r: Request)
    requires Inv(t) && (r.Write? || r.Replace? || r.Federated? || r.Settings? || r.Sweep? || r.Wait?)
    ensures Inv(Step(t, r).0)
  {
    hide UserIds, SessionIds, FactorIds, CodeIds, SecretIds, ChallengeIds;
    hide Sealed, Current, Limited, Proven, ChallengesBounded, SessionsBounded, ChangeUser, RotateSession, NewSession,
      DropSecrets, FactorsOf;
    match r
    case Write(u, row, keep) => if u in t.users { ChangeUserKeepsInv(t, u, row, keep); }
    case Replace(s) => if Authentic(t, s) { RotateSessionKeepsInv(t, s); }
    case Federated(u, how) => if u in t.users && !how.Local? { NewSessionKeepsInv(t, u, how, false); }
    case Settings(_, _) =>
    case Sweep(sessions, challenges, secrets) =>
      var (s, c, x) := Expired(t);
      SweepKeepsInv(t, sessions * s, challenges * c, secrets * x);
    case Wait(_) =>
  }

  lemma StepKeepsInv(t: Tables, r: Request)
    requires Inv(t)
    ensures Inv(Step(t, r).0)
  {
    hide Inv, LocalSession, SessionChallenge, BeginEnrollment, Verify, Remove, RotateCodes, Recover;
    match r
    case SignIn(u, origin) => LocalSessionKeepsInv(t, u, origin);
    case Ask(s, purpose, origin) => SessionChallengeKeepsInv(t, s, purpose, origin);
    case Begin(who, kind, origin) => BeginEnrollmentKeepsInv(t, who, kind, origin);
    case Check(c, proof, caller) => VerifyKeepsInv(t, c, proof, caller);
    case Delete(s, f, ifMatch, recent) => RemoveKeepsInv(t, s, f, ifMatch, recent);
    case Renew(s, ifMatch, recent) => RotateCodesKeepsInv(t, s, ifMatch, recent);
    case Reset(u, mfa) => RecoverKeepsInv(t, u, mfa);
    case Join(row) => JoinKeepsInv(t, row);
    case _ => EnvironmentKeepsInv(t, r);
  }
}
