/** Which answers the MFA handlers give, told on the rows: what is accepted, what
    an acceptance leaves, and what it goes back to in a run. */
module MfaAnswers {
  import opened Common
  import opened Kernel
  import opened Mfa
  import opened MfaInvariants
  import opened MfaSteps
  import opened MfaRuns

  // What may be accepted.

  /** The proof is one that only the challenge's user can give: a code of their
      own TOTP factor, or of the secret being enrolled, for a time step near now
      and later than the last accepted; a recovery code of theirs; a genuine
      assertion by a key of theirs while the challenge carries one; or, when
      enrolling a key, a genuine attestation. */
  predicate Answers(t: Tables, ch: Challenge, proof: Proof) {
    match proof
    case TotpCode(x, counter) =>
      && t.now / 30 - 1 <= counter <= t.now / 30 + 1 && !ch.purpose.EnrollWebAuthn?
      && if ch.purpose.EnrollTotp? then ch.secret == Some(x) && Readable(t, x)
         else x in t.factors && t.factors[x].user == ch.user && t.factors[x].kind == Totp && counter > t.factors[x].last
    case RecoveryCode(d) => !Enrols(ch) && d in t.codes && t.codes[d] == ch.user
    case Assertion(f, genuine) =>
      && genuine && ch.webauthn && !Enrols(ch)
      && f in t.factors && t.factors[f].user == ch.user && t.factors[f].kind == WebAuthn
    case Attestation(genuine) => genuine && ch.webauthn && ch.purpose.EnrollWebAuthn?
  }

  predicate Enrols(ch: Challenge) {
    ch.purpose.EnrollTotp? || ch.purpose.EnrollWebAuthn?
  }

  lemma FactorsAreReadable(t: Tables, f: Id)
    requires Inv(t) && f in t.factors
    ensures Readable(t, f)
  {
    hide Ids, Current, Limited, Proven, ChallengesBounded, SessionsBounded;
  }

  lemma ProvesExactlyWhen(t: Tables, ch: Challenge, proof: Proof)
    requires Inv(t) && !ch.purpose.Bootstrap?
    ensures Proves(t, ch, proof) && !Unreadable(t, ch, proof) <==> Answers(t, ch, proof)
    ensures Unreadable(t, ch, proof) ==>
              ch.purpose.EnrollTotp? && proof.TotpCode? && ch.secret.Some? && !Readable(t, ch.secret.value)
  {
    forall f | f in t.factors ensures Readable(t, f) {
      FactorsAreReadable(t, f);
    }
    hide Inv, Readable;
  }

  /** A check is answered with a session, a grant or a new factor if and only if
      the challenge is loadable and no bootstrap one, the proof answers it, and
      there is room when it enrols: over all tables, challenges and callers. Any
      other proof for such a challenge is a counted failure, unless the pending
      secret cannot be read or there is no room. */
  lemma AcceptedExactlyWhen(t: Tables, c: Id, proof: Proof, caller: Option<Id>)
    requires Inv(t)
    ensures var y := Step(t, Check(c, proof, caller)).1;
            var open := Loadable(t, c, caller) && !t.challenges[c].purpose.Bootstrap?;
            && (Accepts(y) <==>
                  open && Answers(t, t.challenges[c], proof)
                  && (Enrols(t.challenges[c]) ==> |FactorsOf(t.factors, t.challenges[c].user)| < 10))
            && (y.Failed? ==> open && !Answers(t, t.challenges[c], proof))
            && (open && !Answers(t, t.challenges[c], proof) ==>
                  y.Failed? || (proof.TotpCode? && t.challenges[c].purpose.EnrollTotp? && t.challenges[c].secret.Some?
                                && !Readable(t, t.challenges[c].secret.value)))
            && (open && Accepts(y) ==>
                  && (y.SignedIn? <==> t.challenges[c].purpose.Login?)
                  && (y.Enrolled? <==> Enrols(t.challenges[c])))
  {
    hide Inv, Loadable, FactorsOf, NewSession, Activated, Spend, Proves, Unreadable, Answers;
    if Loadable(t, c, caller) {
      assert c in t.challenges by { LoadableIsThere(t, c, caller); }
      if !t.challenges[c].purpose.Bootstrap? {
        ProvesExactlyWhen(t, t.challenges[c], proof);
        if Proves(t, t.challenges[c], proof) {
          LoadableEnrols(t, c, proof, caller);
        }
      }
    }
  }

  lemma LoadableIsThere(t: Tables, c: Id, caller: Option<Id>)
    requires Loadable(t, c, caller)
    ensures c in t.challenges && t.challenges[c].user in t.users
  {
  }

  // What an acceptance leaves.

  /** The session is a new verified one of `u`, good for a day. */
  predicate Minted(t: Tables, t': Tables, s: Id, u: Id, signIn: Kernel.SignIn) {
    s >= t.next && s in t'.sessions && u in t'.users
    && t'.sessions[s] == Session(u, signIn, true, t.now + 86400, StandingOf(t'.users[u]))
  }

  /** Sessions of other users are as before. */
  predicate OtherSessions(t: Tables, t': Tables, u: Id) {
    forall s | s in t.sessions && t.sessions[s].user != u :: s in t'.sessions && t'.sessions[s] == t.sessions[s]
  }

  predicate NoNewSessions(t: Tables, t': Tables, but: set<Id>) {
    forall s :: s in t'.sessions && s !in but ==> s in t.sessions && t'.sessions[s] == t.sessions[s]
  }

  lemma NewSessionMeans(t: Tables, u: Id, signIn: Kernel.SignIn)
    requires u in t.users
    ensures var t' := NewSession(t, u, signIn, true);
            && Minted(t, t', t.next, u, signIn) && (t.next !in t.sessions ==> OtherSessions(t, t', u))
            && NoNewSessions(t, t', {t.next}) && t'.now == t.now && t'.next == t.next + 1
  {
  }

  lemma SpendMeans(t: Tables, ch: Challenge, proof: Proof, c: Id)
    requires Answers(t, ch, proof) && !Enrols(ch)
    ensures var t' := DropChallenges(Spend(t, proof), {c});
            && t'.users == t.users && t'.sessions == t.sessions && t'.now == t.now && t'.next == t.next
            && t'.challenges == t.challenges - {c}
            && t'.codes == (if proof.RecoveryCode? then t.codes - {proof.digest} else t.codes)
            && t'.factors == (if proof.TotpCode? then
                                t.factors[proof.secret := t.factors[proof.secret].(last := proof.counter)]
                                  else t.factors)
  {
  }

  /** What an accepted second factor leaves: the challenge is gone, a recovery
      code is used up, a TOTP factor remembers its time step, and nothing else
      changes, except that a sign-in adds one verified session of the challenge's
      user and may drop their oldest ones. */
  lemma AcceptedProofMeans(t: Tables, c: Id, proof: Proof, caller: Option<Id>)
    requires Inv(t) && c in t.challenges && !Enrols(t.challenges[c])
    ensures var (t', y) := Step(t, Check(c, proof, caller)); var u := t.challenges[c].user;
            Accepts(y) ==>
              && t'.users == t.users && c !in t'.challenges
              && t'.codes == (if proof.RecoveryCode? then t.codes - {proof.digest} else t.codes)
              && (if proof.TotpCode? then
                    proof.secret in t.factors
                    && t'.factors == t.factors[proof.secret := t.factors[proof.secret].(last := proof.counter)]
                  else t'.factors == t.factors)
              && (y.SignedIn? ==>
                    Minted(t, t', y.session, u, Local) && OtherSessions(t, t', u) && NoNewSessions(t, t', {y.session}))
              && (y.Granted? ==> t'.sessions == t.sessions)
  {
    hide Sealed, Current, Limited, Proven, ChallengesBounded, SessionsBounded, FactorsOf, NewSession, Spend, Proves,
      Unreadable, Answers, Minted, OtherSessions, NoNewSessions, UserIds, FactorIds, CodeIds, SecretIds, ChallengeIds;
    AcceptedExactlyWhen(t, c, proof, caller);
    if Accepts(Step(t, Check(c, proof, caller)).1) {
      var ch, t1 := t.challenges[c], DropChallenges(Spend(t, proof), {c});
      SpendMeans(t, ch, proof, c);
      assert Answers(t, ch, proof);
      assert proof.TotpCode? ==> proof.secret in t.factors by { TotpIsThere(t, ch, proof); }
      NewSessionMeans(t1, ch.user, Local);
      NewSessionIsSessionsOnly(t1, ch.user, Local, true);
      assert t.next !in t.sessions by { NextIsNew(t); }
      SameSessions(t, t1, NewSession(t1, ch.user, Local, true), ch.user);
    }
  }

  lemma NextIsNew(t: Tables)
    requires SessionIds(t.next, t.users.Keys, t.sessions)
    ensures t.next !in t.sessions
  {
  }

  lemma TotpIsThere(t: Tables, ch: Challenge, proof: Proof)
    requires Answers(t, ch, proof) && !Enrols(ch)
    ensures proof.TotpCode? ==> proof.secret in t.factors
  {
  }

  lemma SameSessions(t: Tables, t1: Tables, t2: Tables, u: Id)
    requires t1.sessions == t.sessions && t1.now == t.now && t1.next == t.next
    ensures Minted(t1, t2, t1.next, u, Local) ==> Minted(t, t2, t.next, u, Local)
    ensures OtherSessions(t1, t2, u) ==> OtherSessions(t, t2, u)
    ensures NoNewSessions(t1, t2, {t1.next}) ==> NoNewSessions(t, t2, {t.next})
  {
  }

  /** What an accepted enrolment leaves: the user has exactly one new factor, of
      the kind enrolled, which remembers the time step it was enrolled with; a
      first factor brings ten new recovery codes; and the session in the reply is
      a new verified one of the user. Other users' factors and codes stay. */
  lemma AcceptedEnrolmentMeans(t: Tables, c: Id, proof: Proof, caller: Option<Id>)
    requires Inv(t) && c in t.challenges && Enrols(t.challenges[c])
    ensures var (t', y) := Step(t, Check(c, proof, caller)); var ch := t.challenges[c];
            Accepts(y) ==>
              && y.Enrolled? && c !in t'.challenges && y.factor !in t.factors
              && (proof.TotpCode? <==> ch.purpose.EnrollTotp?)
              && t'.factors == t.factors[y.factor :=
                   if proof.TotpCode? then Factor(ch.user, Totp, proof.counter) else Factor(ch.user, WebAuthn, 0)]
              && CodesRenewed(FactorsOf(t.factors, ch.user), t.codes, t'.codes, ch.user)
              && y.newSession in t'.sessions && y.newSession >= t.next
              && t'.sessions[y.newSession].user == ch.user && t'.sessions[y.newSession].mfa
  {
    hide Sealed, Current, Limited, Proven, ChallengesBounded, SessionsBounded, FactorsOf, NewSession, Activated, Proves,
      Unreadable, Answers, Minted, OtherSessions, NoNewSessions, UserIds, FactorIds, CodeIds, SecretIds, ChallengeIds,
      CodesRenewed;
    AcceptedExactlyWhen(t, c, proof, caller);
    if Accepts(Step(t, Check(c, proof, caller)).1) {
      var ch := t.challenges[c];
      EnrolmentProof(t, ch, proof);
      LoadableEnrols(t, c, proof, caller);
      var t1 := Activated(t, c, proof);
      ActivatedChanges(t, c, proof);
      ActivatedCodes(t, c, proof);
      assert NewFactor(t, c) !in t.factors by { NewFactorIsNew(t, c, proof); }
      var t2 := if ch.session.None? then t1 else DropSessions(t1, SessionsOf(t1.sessions, ch.user));
      var signIn := if ch.session.None? then Local else t.sessions[ch.session.value].signIn;
      assert t2.next == t1.next && t2.codes == t1.codes && t2.factors == t1.factors;
      assert c !in t2.challenges;
      NewSessionMeans(t2, ch.user, signIn);
      NewSessionIsSessionsOnly(t2, ch.user, signIn, true);
      assert Minted(t2, NewSession(t2, ch.user, signIn, true), t2.next, ch.user, signIn);
      MintedIs(t2, NewSession(t2, ch.user, signIn, true), t2.next, ch.user, signIn);
    }
  }

  lemma EnrolmentProof(t: Tables, ch: Challenge, proof: Proof)
    requires Answers(t, ch, proof) && Enrols(ch)
    ensures proof.TotpCode? <==> ch.purpose.EnrollTotp?
  {
  }

  lemma MintedIs(t: Tables, t': Tables, s: Id, u: Id, signIn: Kernel.SignIn)
    requires Minted(t, t', s, u, signIn)
    ensures s in t'.sessions && t'.sessions[s].user == u && t'.sessions[s].mfa
  {
  }

  function CodesOf(codes: map<Id, Id>, u: Id): set<Id> {
    set d | d in codes && codes[d] == u
  }

  lemma NewFactorIsNew(t: Tables, c: Id, proof: Proof)
    requires Inv(t) && Enrolling(t, c, proof) && Enrols(t.challenges[c])
    ensures NewFactor(t, c) !in t.factors
  {
    hide Current, Limited, Proven, ChallengesBounded, SessionsBounded, UserIds, SessionIds, CodeIds, SecretIds;
  }

  lemma ReplacedCodes(t: Tables, u: Id)
    requires CodeIds(t.next, t.users.Keys, t.codes)
    ensures var t' := ReplaceCodes(t, u);
            && CodesOf(t'.codes, u) == Drawn(t.next, 10) && |CodesOf(t'.codes, u)| == 10
            && (forall d :: d in t.codes && t.codes[d] != u ==> d in t'.codes && t'.codes[d] == t.codes[d])
            && (forall d :: d in t'.codes && t'.codes[d] != u ==> d in t.codes && t'.codes[d] == t.codes[d])
  {
    assert CodesOf(ReplaceCodes(t, u).codes, u) == Drawn(t.next, 10);
  }

  /** What becomes of the codes when the user's factors were `before`. */
  predicate CodesRenewed(before: set<Id>, codes: map<Id, Id>, codes': map<Id, Id>, u: Id) {
    && (forall d :: d in codes && codes[d] != u ==> d in codes' && codes'[d] == codes[d])
    && (before == {} ==> |CodesOf(codes', u)| == 10) && (before != {} ==> codes' == codes)
  }

  lemma MaybeReplacedCodes(t: Tables, u: Id, before: set<Id>)
    requires CodeIds(t.next, t.users.Keys, t.codes)
    ensures CodesRenewed(before, t.codes, (if before == {} then ReplaceCodes(t, u) else t).codes, u)
  {
    hide ReplaceCodes, CodesOf;
    ReplacedCodes(t, u);
  }

  lemma ActivatedCodes(t: Tables, c: Id, proof: Proof)
    requires CodeIds(t.next, t.users.Keys, t.codes) && Enrolling(t, c, proof)
    ensures var u := t.challenges[c].user;
            CodesRenewed(FactorsOf(t.factors, u), t.codes, Activated(t, c, proof).codes, u)
  {
    hide FactorsOf, ReplaceCodes, AddFactor, CodesRenewed;
    var ch := t.challenges[c];
    var totp := ch.purpose.EnrollTotp?;
    var t1 := if totp then DropChallenges(t, {c}) else AddSecret(DropChallenges(t, {c}), None);
    var kind, counter := if totp then Totp else WebAuthn, if totp then proof.counter else 0;
    var t2 := AddFactor(t1, NewFactor(t, c), ch.user, kind, counter);
    AddFactorCodes(t1, NewFactor(t, c), ch.user, kind, counter);
    CodeIdsMoveOn(t.next, t2.next, t.users.Keys, t2.users.Keys, t.codes);
    MaybeReplacedCodes(t2, ch.user, FactorsOf(t.factors, ch.user));
  }

  lemma AddFactorCodes(t: Tables, f: Id, u: Id, kind: Kind, counter: int)
    requires u in t.users
    ensures var t' := AddFactor(t, f, u, kind, counter);
            t'.codes == t.codes && t'.next > t.next && t'.users.Keys == t.users.Keys
  {
  }

  lemma CodeIdsMoveOn(next: Id, next': Id, users: set<Id>, users': set<Id>, codes: map<Id, Id>)
    requires CodeIds(next, users, codes) && next <= next' && users' == users
    ensures CodeIds(next', users', codes)
  {
  }

  // The other handlers.

  /** The password alone signs a user in if and only if local sign-in is on, the
      user is active and authorized, has no factor, and none is required; with a
      factor or a requirement the answer is a challenge, or a refusal when no
      method of the user's can be used. */
  lemma SignInAnswersExactly(t: Tables, u: Id, origin: bool)
    ensures var (t', y) := Step(t, SignIn(u, origin));
            var allowed := t.localLogin && u in t.users && t.users[u].active && t.users[u].authorized;
            && (y.SignedIn? <==> allowed && !t.mfaRequired && forall f :: f in t.factors ==> t.factors[f].user != u)
            && (y.SignedIn? ==>
                  && y.session in t'.sessions && t'.sessions[y.session].user == u
                  && t'.sessions[y.session].signIn == Local && !t'.sessions[y.session].mfa)
            && (y.Issued? <==>
                  allowed && if exists f :: f in t.factors && t.factors[f].user == u
                             then Challengeable(t, u, origin) else t.mfaRequired)
            && (y.SignedIn? || y.Issued? || (y.Refused? && t' == t))
  {
    hide StoreFlow, Surplus;
    assert FactorsOf(t.factors, u) == {} <==> forall f :: f in t.factors ==> t.factors[f].user != u by {
      assert forall f :: f in t.factors && t.factors[f].user == u ==> f in FactorsOf(t.factors, u);
    }
  }

  predicate Challengeable(t: Tables, u: Id, origin: bool) {
    || (exists f :: f in t.factors && t.factors[f].user == u && (t.factors[f].kind == Totp || origin))
    || (exists d :: d in t.codes && t.codes[d] == u)
  }

  /** A factor is removed if and only if an authentic session that has just
      confirmed its identity names one of its user's own under the present
      revision and, where factors are required, not the last. The factor goes, and
      with the last one the user's recovery codes; all other factors and codes stay. */
  lemma RemovalMeans(t: Tables, s: Id, f: Id, ifMatch: Id, recent: bool)
    ensures var (t', y) := Step(t, Delete(s, f, ifMatch, recent));
            && (y.Done? <==>
                  && recent && Authentic(t, s) && f in t.factors && t.factors[f].user == t.sessions[s].user
                  && ifMatch == t.users[t.sessions[s].user].mfaRevision
                  && (t.mfaRequired ==> |FactorsOf(t.factors, t.sessions[s].user)| > 1))
            && (y.Done? || (y.Refused? && t' == t))
            && (y.Done? ==>
                  && t'.factors == t.factors - {f} && f !in t'.secrets
                  && (|FactorsOf(t.factors, t.sessions[s].user)| > 1 ==> t'.codes == t.codes)
                  && (|FactorsOf(t.factors, t.sessions[s].user)| <= 1 ==>
                        t'.codes == map d | d in t.codes && t.codes[d] != t.sessions[s].user :: t.codes[d]))
  {
    hide FactorsOf, SessionsOf;
  }

  /** Recovery codes are renewed if and only if an authentic session that has just
      confirmed its identity asks under the present revision for a user with a
      factor: the user then has exactly ten codes, all new, and nobody else's
      change. */
  lemma RenewalMeans(t: Tables, s: Id, ifMatch: Id, recent: bool)
    requires CodeIds(t.next, t.users.Keys, t.codes)
    ensures var (t', y) := Step(t, Renew(s, ifMatch, recent));
            && (y.Done? <==>
                  && recent && Authentic(t, s) && FactorsOf(t.factors, t.sessions[s].user) != {}
                  && ifMatch == t.users[t.sessions[s].user].mfaRevision)
            && (y.Done? || (y.Refused? && t' == t))
            && (y.Done? ==>
                  var u := t.sessions[s].user;
                  && |CodesOf(t'.codes, u)| == 10 && (forall d :: d in CodesOf(t'.codes, u) ==> d >= t.next)
                  && (forall d :: d in t.codes && t.codes[d] != u ==> d in t'.codes && t'.codes[d] == t.codes[d])
                  && (forall d :: d in t'.codes && t'.codes[d] != u ==> d in t.codes && t'.codes[d] == t.codes[d])
                  && t'.factors == t.factors && t'.sessions == t.sessions && t'.challenges == t.challenges)
  {
    hide FactorsOf, ReplaceCodes, CodesOf;
    if Authentic(t, s) {
      ReplacedCodes(t, t.sessions[s].user);
      ReplacedCodesTouchNothingElse(t, t.sessions[s].user);
    }
  }

  lemma WriteMeans(t: Tables, u: Id, row: User)
    requires u in t.users
    ensures var t' := ChangeUser(t, u, row, false);
            && t'.sessions == (map s | s in t.sessions && t.sessions[s].user != u :: t.sessions[s])
            && t'.factors == t.factors && t'.codes == t.codes && u in t'.users
            && t'.users[u].password == row.password && t'.users[u].role == row.role
  {
  }

  lemma ResetMeans(t: Tables, u: Id, gone: set<Id>)
    requires u in t.users
    ensures var t2 := DropCodes(DropChallenges(t, ChallengesOf(t.challenges, u)), u);
            var t' := DropSecrets(FreshRevision(t2.(factors := t2.factors - FactorsOf(t2.factors, u)), u), gone);
            && t'.sessions == t.sessions && u in t'.users
               && t'.users[u] == t.users[u].(mfaRevision := t'.users[u].mfaRevision)
            && t'.factors == (map f | f in t.factors && t.factors[f].user != u :: t.factors[f])
            && t'.codes == (map d | d in t.codes && t.codes[d] != u :: t.codes[d])
            && (forall c :: c in t'.challenges ==> t'.challenges[c].user != u)
  {
  }

  /** A recovery happens if and only if the account is there and active. It sets a
      password and ends the user's sessions; with a reset, no factor, code or
      challenge of the user is left, and nobody else's factors or codes change. */
  lemma RecoveryMeans(t: Tables, u: Id, reset: bool)
    ensures var (t', y) := Step(t, Reset(u, reset));
            && (y.Done? <==> u in t.users && t.users[u].active) && (y.Done? || (y.Refused? && t' == t))
            && (y.Done? ==>
                  && u in t'.users && t'.users[u].password && t'.users[u].role == t.users[u].role
                  && t'.sessions == (map s | s in t.sessions && t.sessions[s].user != u :: t.sessions[s])
                  && t'.factors == (map f | f in t.factors && (!reset || t.factors[f].user != u) :: t.factors[f])
                  && t'.codes == (map d | d in t.codes && (!reset || t.codes[d] != u) :: t.codes[d])
                  && (reset ==> forall c :: c in t'.challenges ==> t'.challenges[c].user != u))
  {
    hide OwnedSecrets, ChangeUser, DropCodes, DropChallenges, DropSecrets, FreshRevision, FactorsOf, ChallengesOf;
    if u in t.users && t.users[u].active {
      var t1 := ChangeUser(t, u, t.users[u].(password := true), false);
      WriteMeans(t, u, t.users[u].(password := true));
      ResetMeans(t1, u, OwnedSecrets(t1, u));
    }
  }

  /** An enrolment is begun if and only if it comes from an authentic session that
      has just confirmed its identity, or from a loadable bootstrap challenge of a
      user without factors; the user has fewer than ten factors; and a second
      TOTP factor, or a key where WebAuthn does not work, is not asked for. */
  lemma EnrolmentBeginsExactlyWhen(t: Tables, who: Enroller, kind: Kind, origin: bool)
    ensures var (t', y) := Step(t, Begin(who, kind, origin));
            var allowed :=
              match who
              case BySession(s, recent) => recent && Authentic(t, s)
              case ByChallenge(c) => Loadable(t, c, None) && t.challenges[c].purpose.Bootstrap?;
            var u := match who
                     case BySession(s, _) => if s in t.sessions then t.sessions[s].user else 0
                     case ByChallenge(c) => if c in t.challenges then t.challenges[c].user else 0;
            && (y.Issued? <==>
                  && allowed && |FactorsOf(t.factors, u)| < 10 && (who.ByChallenge? ==> FactorsOf(t.factors, u) == {})
                  && (kind == Totp ==>
                       forall f :: f in t.factors && t.factors[f].user == u ==> t.factors[f].kind != Totp)
                  && (kind == WebAuthn ==> origin))
            && (y.Issued? || (y.Refused? && t' == t))
  {
    hide StoreFlow, FactorsOf;
  }

  /** A session's challenge is issued if and only if the session is authentic, it
      is for managing or confirming, and its user has a factor and a method that
      can be used. */
  lemma SessionChallengeIssuedExactlyWhen(t: Tables, s: Id, purpose: Purpose, origin: bool)
    ensures var (t', y) := Step(t, Ask(s, purpose, origin));
            && (y.Issued? <==>
                  && Authentic(t, s) && (purpose == Manage || purpose == Reauth)
                  && FactorsOf(t.factors, t.sessions[s].user) != {} && Challengeable(t, t.sessions[s].user, origin))
            && (y.Issued? || (y.Refused? && t' == t))
  {
    hide StoreFlow, FactorsOf;
  }

  // What an acceptance goes back to.

  /** Who asked for the challenge: a sign-in of the user, or a session. */
  predicate IssuedBy(t: Tables, r: Request, ch: Challenge) {
    match r
    case SignIn(u, origin) =>
      && ch.user == u && ch.session.None? && (ch.purpose.Login? || ch.purpose.Bootstrap?)
      && ch.secret.None? && (ch.webauthn <==> origin && OwnsKey(t, u))
    case Ask(s, purpose, origin) =>
      && s in t.sessions && ch.user == t.sessions[s].user && ch.session == Some(s) && ch.purpose == purpose
      && (purpose.Manage? || purpose.Reauth?)
      && ch.secret.None? && (ch.webauthn <==> origin && OwnsKey(t, ch.user))
    case Begin(BySession(s, _), kind, _) =>
      && s in t.sessions && ch.user == t.sessions[s].user && ch.session == Some(s) && Enrolment(t, kind, ch)
    case Begin(ByChallenge(b), kind, _) =>
      && b in t.challenges && t.challenges[b].purpose.Bootstrap? && ch.user == t.challenges[b].user && ch.session.None?
      && Enrolment(t, kind, ch)
    case _ => false
  }

  predicate OwnsKey(t: Tables, u: Id) {
    exists f :: f in t.factors && t.factors[f].user == u && t.factors[f].kind == WebAuthn
  }

  /** An enrolment carries a new TOTP secret, or a WebAuthn challenge. */
  predicate Enrolment(t: Tables, kind: Kind, ch: Challenge) {
    if kind == Totp then ch.purpose == EnrollTotp && !ch.webauthn && ch.secret.Some? && ch.secret.value >= t.next
    else ch.purpose == EnrollWebAuthn && ch.webauthn && ch.secret.None?
  }

  /** The challenge is a new one under the user's tags, good for five minutes. */
  predicate FreshRow(t: Tables, ch: Challenge) {
    && ch.user in t.users && ch.etag == t.users[ch.user].etag && ch.revision == t.users[ch.user].mfaRevision
    && ch.attempts == 0 && ch.expires == t.now + 300
  }

  lemma StoreFlowAdds(
    t: Tables, u: Id, session: Option<Id>, purpose: Purpose, secret: Option<Id>, webauthn: bool, c: Id)
    requires u in t.users
    ensures var t' := StoreFlow(t, u, session, purpose, secret, webauthn);
            c !in t.challenges && c in t'.challenges ==>
              && c == t.next && FreshRow(t, t'.challenges[c]) && t'.challenges[c].user == u
              && t'.challenges[c].session == session && t'.challenges[c].purpose == purpose
              && t'.challenges[c].secret == secret && t'.challenges[c].webauthn == webauthn
  {
    hide Stale, StaleSecrets;
  }

  lemma OwnsKeyAgrees(t: Tables, u: Id)
    ensures OwnsKey(t, u) <==> HasKey(t.factors, u)
  {
  }

  lemma SignInAdds(t: Tables, u: Id, origin: bool, c: Id)
    ensures var (t', y) := LocalSession(t, u, origin);
            c !in t.challenges && c in t'.challenges ==>
              y == Issued(c) && FreshRow(t, t'.challenges[c]) && IssuedBy(t, SignIn(u, origin), t'.challenges[c])
  {
    hide StoreFlow, NewSession, FactorsOf, HasTotp, HasKey, HasCode, FreshRow, OwnsKey;
    OwnsKeyAgrees(t, u);
    if Usable(t, u) {
      NewSessionIsSessionsOnly(t, u, Local, false);
      StoreFlowAdds(t, u, None, Login, None, HasKey(t.factors, u) && origin, c);
      StoreFlowAdds(t, u, None, Bootstrap, None, HasKey(t.factors, u) && origin, c);
    }
  }

  lemma AskAdds(t: Tables, s: Id, purpose: Purpose, origin: bool, c: Id)
    ensures var (t', y) := SessionChallenge(t, s, purpose, origin);
            c !in t.challenges && c in t'.challenges ==>
              y == Issued(c) && FreshRow(t, t'.challenges[c]) && IssuedBy(t, Ask(s, purpose, origin), t'.challenges[c])
  {
    hide StoreFlow, FactorsOf, HasTotp, HasKey, HasCode, FreshRow, OwnsKey;
    if Authentic(t, s) {
      var u := t.sessions[s].user;
      OwnsKeyAgrees(t, u);
      StoreFlowAdds(t, u, Some(s), purpose, None, HasKey(t.factors, u) && origin, c);
    }
  }

  lemma BeginAdds(t: Tables, who: Enroller, kind: Kind, origin: bool, c: Id)
    ensures var (t', y) := BeginEnrollment(t, who, kind, origin);
            c !in t.challenges && c in t'.challenges ==>
              y == Issued(c) && FreshRow(t, t'.challenges[c]) && IssuedBy(t, Begin(who, kind, origin), t'.challenges[c])
  {
    hide StoreFlow, FactorsOf, HasTotp;
    if MayEnroll(t, who) {
      var u := if who.ByChallenge? then t.challenges[who.c].user else t.sessions[who.s].user;
      var session := if who.ByChallenge? then None else Some(who.s);
      var t1 := if who.ByChallenge? then DropChallenges(t, {who.c}) else t;
      StoreFlowAdds(AddSecret(t1, Some(t.now + MFA_TTL)), u, session, EnrollTotp, Some(t.next), false, c);
      StoreFlowAdds(t1, u, session, EnrollWebAuthn, None, true, c);
    }
  }

  predicate NoneAdded(t: Tables, t': Tables) {
    forall c :: c in t'.challenges ==> c in t.challenges
  }

  lemma ActivateAddsNone(t: Tables, c: Id, proof: Proof)
    requires Enrolling(t, c, proof)
    ensures NoneAdded(t, Activate(t, c, proof).0)
  {
    hide FactorsOf, NewSession, Activated, CodesFollow;
    var ch, t1 := t.challenges[c], Activated(t, c, proof);
    ActivatedChanges(t, c, proof);
    var t2 := if ch.session.None? then t1 else DropSessions(t1, SessionsOf(t1.sessions, ch.user));
    NewSessionIsSessionsOnly(t2, ch.user, if ch.session.None? then Local else t.sessions[ch.session.value].signIn,
      true);
  }

  lemma SpendAddsNone(t: Tables, c: Id, proof: Proof, u: Id)
    requires u in t.users && u in Spend(t, proof).users
    ensures NoneAdded(t, DropChallenges(Spend(t, proof), {c}))
    ensures NoneAdded(t, NewSession(DropChallenges(Spend(t, proof), {c}), u, Local, true))
  {
    hide NewSession;
    NewSessionIsSessionsOnly(DropChallenges(Spend(t, proof), {c}), u, Local, true);
  }

  lemma CheckAddsNone(t: Tables, c: Id, proof: Proof, caller: Option<Id>)
    ensures NoneAdded(t, Verify(t, c, proof, caller).0)
  {
    hide FactorsOf, NewSession, Activate, Proves, Unreadable, Spend, DropChallenges;
    if Loadable(t, c, caller) && Proves(t, t.challenges[c], proof) {
      var ch := t.challenges[c];
      LoadableEnrols(t, c, proof, caller);
      ActivateAddsNone(t, c, proof);
      if !Enrols(ch) {
        SpendFollows(t, ch, proof, c);
        SpendAddsNone(t, c, proof, ch.user);
      }
    }
  }

  lemma DroppingAddsNone(t: Tables, gone: set<Id>)
    ensures NoneAdded(t, DropSessions(t, gone)) && NoneAdded(t, DropSecrets(t, gone))
            && NoneAdded(t, DropChallenges(t, gone))
    ensures DropSessions(t, gone).challenges.Keys <= t.challenges.Keys
    ensures DropSecrets(t, gone).challenges.Keys <= t.challenges.Keys
  {
  }

  lemma RemoveAddsNone(t: Tables, s: Id, f: Id, ifMatch: Id, recent: bool)
    ensures NoneAdded(t, Remove(t, s, f, ifMatch, recent).0)
  {
    hide FactorsOf, SessionsOf, DropSessions, DropSecrets;
    if Remove(t, s, f, ifMatch, recent).1.Done? {
      var u := t.sessions[s].user;
      DroppingAddsNone(t.(factors := t.factors - {f}), {f});
      var t1 := RemoveFactor(t, f);
      var t2 := if |FactorsOf(t.factors, u)| <= 1 then Unverify(t1, u) else t1;
      assert t2.challenges == t1.challenges;
      DroppingAddsNone(t2, SessionsOf(t2.sessions, u) - {s});
    }
  }

  lemma RecoverAddsNone(t: Tables, u: Id, reset: bool)
    ensures NoneAdded(t, Recover(t, u, reset).0)
  {
    hide FactorsOf, SessionsOf, ChallengesOf, OwnedSecrets, DropSessions, DropSecrets;
    if u in t.users && t.users[u].active {
      var t0 := t.(next := t.next + 1,
        users := t.users[u := t.users[u].(password := true, etag := t.next)]);
      DroppingAddsNone(t0, SessionsOf(t0.sessions, u));
      DroppingKeepsUsers(t0, SessionsOf(t0.sessions, u));
      var t1 := ChangeUser(t, u, t.users[u].(password := true), false);
      assert t1 == DropSessions(t0, SessionsOf(t0.sessions, u));
      if reset {
        var t2 := DropCodes(DropChallenges(t1, ChallengesOf(t1.challenges, u)), u);
        DroppingAddsNone(FreshRevision(t2.(factors := t2.factors - FactorsOf(t2.factors, u)), u), OwnedSecrets(t1, u));
      }
    }
  }

  lemma ManagingAddsNone(t: Tables, r: Request)
    requires r.Delete? || r.Renew? || r.Reset?
    ensures NoneAdded(t, Step(t, r).0)
  {
    hide FactorsOf, CodesFor, NewCodes, Remove, Recover;
    match r
    case Delete(s, f, ifMatch, recent) => RemoveAddsNone(t, s, f, ifMatch, recent);
    case Reset(u, mfa) => RecoverAddsNone(t, u, mfa);
    case Renew(_, _, _) =>
  }

  lemma EnvironmentAddsNone(t: Tables, r: Request)
    requires r.Write? || r.Replace? || r.Federated? || r.Join? || r.Settings? || r.Sweep? || r.Wait?
    ensures NoneAdded(t, Step(t, r).0)
  {
    hide NewSession, SessionsOf, FactorsOf, Expired;
    if r.Replace? && Authentic(t, r.session) {
      var asked := t.sessions[r.session];
      var t1 := ChangeUser(t, asked.user, t.users[asked.user], false);
      NewSessionIsSessionsOnly(t1, asked.user, asked.signIn, asked.mfa);
    } else if r.Federated? && r.user in t.users {
      NewSessionIsSessionsOnly(t, r.user, r.how, false);
    }
  }

  lemma StepAddsChallenge(t: Tables, r: Request, c: Id)
    requires Inv(t) && c !in t.challenges && c in Step(t, r).0.challenges
    ensures var (t', y) := Step(t, r);
            y == Issued(c) && FreshRow(t, t'.challenges[c]) && IssuedBy(t, r, t'.challenges[c])
  {
    hide Inv, LocalSession, SessionChallenge, BeginEnrollment, Verify, Remove, RotateCodes, Recover, IssuedBy, FreshRow,
      ChangeUser, RotateSession, NewSession, Expired;
    match r
    case SignIn(u, origin) => SignInAdds(t, u, origin, c);
    case Ask(s, purpose, origin) => AskAdds(t, s, purpose, origin, c);
    case Begin(who, kind, origin) => BeginAdds(t, who, kind, origin, c);
    case Check(d, proof, caller) => CheckAddsNone(t, d, proof, caller);
    case Delete(_, _, _, _) => ManagingAddsNone(t, r);
    case Renew(_, _, _) => ManagingAddsNone(t, r);
    case Reset(_, _) => ManagingAddsNone(t, r);
    case _ => EnvironmentAddsNone(t, r);
  }

  /** While it is there, the challenge stands as it was issued. */
  predicate Stands(t: Tables, c: Id, ch: Challenge) {
    c < t.next && (c in t.challenges ==> t.challenges[c] == ch.(attempts := t.challenges[c].attempts))
  }

  lemma StepKeepsStanding(t: Tables, r: Request, c: Id, ch: Challenge)
    requires Inv(t) && Stands(t, c, ch)
    ensures Stands(Step(t, r).0, c, ch)
  {
    hide Step, Inv, CodesFollow, FactorsFollow;
    StepFollows(t, r);
  }

  lemma {:induction false} RunKeepsStanding(t: Tables, run: seq<Request>, c: Id, ch: Challenge)
    requires Inv(t) && Stands(t, c, ch)
    ensures Stands(After(t, run), c, ch)
    decreases |run|
  {
    hide Step, Inv, Stands;
    if run != [] {
      StepKeepsInv(t, run[0]);
      StepKeepsStanding(t, run[0], c, ch);
      RunKeepsStanding(Step(t, run[0]).0, run[1..], c, ch);
    }
  }

  lemma ChallengeIsDrawn(t: Tables, c: Id)
    requires Inv(t) && c in t.challenges
    ensures c < t.next
  {
    hide Sealed, Current, Limited, Proven, ChallengesBounded, SessionsBounded;
  }

  /** Where in a run a challenge was issued. */
  lemma {:induction false} FindIssue(t: Tables, run: seq<Request>, c: Id)
      returns (a: seq<Request>, issue: Request, b: seq<Request>)
    requires Inv(t) && c !in t.challenges && c in After(t, run).challenges
    ensures run == a + [issue] + b && Step(After(t, a), issue).1 == Issued(c)
    ensures FreshRow(After(t, a), After(t, run).challenges[c].(attempts := 0))
    ensures IssuedBy(After(t, a), issue, After(t, run).challenges[c].(attempts := 0))
    decreases |run|
  {
    hide Step, Inv, IssuedBy, FreshRow, Stands;
    var t1 := Step(t, run[0]).0;
    StepKeepsInv(t, run[0]);
    if c in t1.challenges {
      StepAddsChallenge(t, run[0], c);
      ChallengeIsDrawn(t1, c);
      FreshIsUntried(t, t1.challenges[c]);
      assert Stands(t1, c, t1.challenges[c]) by { RowStands(t1, c); }
      RunKeepsStanding(t1, run[1..], c, t1.challenges[c]);
      assert After(t1, run[1..]).challenges[c].(attempts := 0) == t1.challenges[c] by {
        StandsAs(After(t1, run[1..]), c, t1.challenges[c]);
      }
      a, issue, b := [], run[0], run[1..];
      assert After(t, a) == t;
    } else {
      var d;
      d, issue, b := FindIssue(t1, run[1..], c);
      a := [run[0]] + d;
      assert a[1..] == d;
    }
  }

  lemma RowStands(t: Tables, c: Id)
    requires c in t.challenges && c < t.next
    ensures Stands(t, c, t.challenges[c])
  {
  }

  lemma StandsAs(t: Tables, c: Id, ch: Challenge)
    requires Stands(t, c, ch) && c in t.challenges && ch.attempts == 0
    ensures t.challenges[c].(attempts := 0) == ch
  {
  }

  lemma FreshIsUntried(t: Tables, ch: Challenge)
    requires FreshRow(t, ch)
    ensures ch.attempts == 0
  {
  }

  lemma IssueDecides(t: Tables, issue: Request, ch: Challenge)
    requires IssuedBy(t, issue, ch) && !ch.purpose.Bootstrap?
    ensures issue.SignIn? || issue.Ask? || issue.Begin?
    ensures issue.SignIn? <==> ch.purpose.Login?
    ensures issue.Begin? <==> Enrols(ch)
    ensures issue.Ask? || (issue.Begin? && issue.who.BySession?) <==> ch.session.Some?
  {
  }

  lemma LoadableMeans(t: Tables, c: Id, caller: Option<Id>)
    requires Loadable(t, c, caller)
    ensures c in t.challenges && t.challenges[c].expires > t.now && t.challenges[c].user in t.users
    ensures var u := t.users[t.challenges[c].user];
            u.active && u.authorized && u.etag == t.challenges[c].etag && u.mfaRevision == t.challenges[c].revision
    ensures t.challenges[c].session.Some? ==>
              caller == t.challenges[c].session && Authentic(t, caller.value)
              && t.sessions[caller.value].user == t.challenges[c].user
    ensures t.challenges[c].session.None? ==> t.localLogin
  {
  }

  /** Every acceptance of every run goes back to the one request that issued the
      challenge, less than five minutes before: a sign-in of that user, answered
      with a session of theirs; or a request of a session that is the caller's
      and still authentic. The user is active and authorized, and their entity
      tag and MFA revision have not changed since. */
  lemma AcceptanceHasItsHistory(t: Tables, run: seq<Request>, c: Id, proof: Proof, caller: Option<Id>)
      returns (a: seq<Request>, issue: Request, b: seq<Request>)
    requires Empty(t) && Accepts(Step(After(t, run), Check(c, proof, caller)).1)
    ensures run == a + [issue] + b && Step(After(t, a), issue).1 == Issued(c)
    ensures var s, m := After(t, a), After(t, run);
            && c in m.challenges && IssuedBy(s, issue, m.challenges[c].(attempts := 0))
            && m.now < s.now + 300
            && var u := m.challenges[c].user;
            && u in s.users && u in m.users && m.users[u].active && m.users[u].authorized
            && m.users[u].etag == s.users[u].etag && m.users[u].mfaRevision == s.users[u].mfaRevision
            && (m.challenges[c].session.Some? ==>
                  && caller == m.challenges[c].session && Authentic(m, caller.value)
                     && m.sessions[caller.value].user == u)
            && (m.challenges[c].session.None? ==> m.localLogin)
    ensures var y := Step(After(t, run), Check(c, proof, caller)).1;
            (y.SignedIn? <==> issue.SignIn?) && (y.Granted? <==> issue.Ask?) && (y.Enrolled? <==> issue.Begin?)
  {
    hide Step, Inv, IssuedBy, Loadable, Authentic;
    assert Inv(t) by { EmptyHasInv(t); }
    RunKeepsInv(t, run);
    var m := After(t, run);
    AcceptedExactlyWhen(m, c, proof, caller);
    LoadableMeans(m, c, caller);
    assert c !in t.challenges;
    a, issue, b := FindIssue(t, run, c);
    IssueDecides(After(t, a), issue, m.challenges[c].(attempts := 0));
    CheckAccepts(m, c, proof, caller);
  }

  lemma CheckAccepts(t: Tables, c: Id, proof: Proof, caller: Option<Id>)
    requires c in t.challenges && Accepts(Step(t, Check(c, proof, caller)).1)
    ensures var y, ch := Step(t, Check(c, proof, caller)).1, t.challenges[c];
            (y.SignedIn? <==> ch.purpose.Login?) && (y.Enrolled? <==> Enrols(ch)) && !ch.purpose.Bootstrap?
  {
    hide Loadable, Proves, Unreadable, FactorsOf, NewSession, Activated, Spend;
  }
}
