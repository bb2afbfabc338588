/** The handlers as they run: statements on the tables inside a transaction that
    holds the installation lock, and a commit. */
module MfaServer {
  import opened Common
  import opened Kernel
  import opened Mfa
  import opened MfaInvariants
  import MfaSteps

  class Server {
    var db: Tables

    constructor (initial: Tables)
      requires Inv(initial)
      ensures db == initial
    {
      db := initial;
    }

    /** replaceRecoveryCodes: ten inserts after a delete. */
    method ReplaceRecoveryCodes(tx: Tables, u: Id) returns (r: Tables, codes: seq<Id>)
      ensures r == ReplaceCodes(tx, u)
      ensures |codes| == RECOVERY_CODES && forall k :: 0 <= k < RECOVERY_CODES ==> codes[k] == tx.next + k
    {
      r := DropCodes(tx, u);
      var rows;
      rows, codes := InsertCodes(r.codes, u, r.next, RECOVERY_CODES);
      r := r.(next := r.next + RECOVERY_CODES, codes := rows);
    }

    /** The loop that draws a code and inserts its digest. */
    method InsertCodes(kept: map<Id, Id>, u: Id, from: Id, n: nat) returns (rows: map<Id, Id>, codes: seq<Id>)
      ensures rows == kept + CodesFor(u, Drawn(from, n))
      ensures |codes| == n && forall k :: 0 <= k < n ==> codes[k] == from + k
    {
      hide Drawn;
      rows, codes := kept, [];
      NoneDrawn(kept, u, from);
      for i := 0 to n
        invariant |codes| == i && forall k :: 0 <= k < i ==> codes[k] == from + k
        invariant rows == kept + CodesFor(u, Drawn(from, i))
      {
        DrawnNext(from, i);
        InsertedCode(kept, u, Drawn(from, i), from + i);
        rows, codes := rows[from + i := u], codes + [from + i];
      }
    }

    static lemma NoneDrawn(kept: map<Id, Id>, u: Id, from: Id)
      ensures kept + CodesFor(u, Drawn(from, 0)) == kept
    {
    }

    static lemma DrawnNext(from: Id, n: nat)
      ensures Drawn(from, n + 1) == Drawn(from, n) + {from + n}
    {
    }

    static lemma InsertedCode(kept: map<Id, Id>, u: Id, digests: set<Id>, d: Id)
      ensures (kept + CodesFor(u, digests))[d := u] == kept + CodesFor(u, digests + {d})
    {
    }

    /** Seven rows and one more are at most eight, whoever the one belongs to. */
    static lemma StoredAtMostEight(t: Tables, u: Id, session: Option<Id>, purpose: Purpose, secret: Option<Id>,
        webauthn: bool)
      requires u in t.users
      ensures var r := StoreFlow(t, u, session, purpose, secret, webauthn);
              && |ChallengesOf(r.challenges, u)| <= 8
              && forall c :: c in r.challenges ==> r.challenges[c].expires > r.now
    {
      PruneLeavesSeven(t, u);
      var kept := ChallengesOf(Prune(t, u).challenges, u);
      SubsetSize(ChallengesOf(StoreFlow(t, u, session, purpose, secret, webauthn).challenges, u), kept + {t.next});
    }

    static lemma MintedAtMostTwenty(t: Tables, u: Id, signIn: Kernel.SignIn, mfa: bool)
      requires u in t.users
      ensures |SessionsOf(NewSession(t, u, signIn, mfa).sessions, u)| <= 20
    {
      var ids := SessionsOf(t.sessions, u);
      SurplusLeaves(ids, 19);
      SubsetSize(SessionsOf(NewSession(t, u, signIn, mfa).sessions, u), (ids - Surplus(ids, 19)) + {t.next});
    }

    /** storeMFAFlow: delete what is over or too much, then insert. The user is
        left with at most eight challenges, and nobody with an expired one. */
    method StoreMfaFlow(tx: Tables, u: Id, session: Option<Id>, purpose: Purpose, secret: Option<Id>, webauthn: bool)
      returns (r: Tables, challenge: Id)
      requires Usable(tx, u)
      ensures r == StoreFlow(tx, u, session, purpose, secret, webauthn) && challenge == tx.next
      ensures |ChallengesOf(r.challenges, u)| <= 8 && forall c :: c in r.challenges ==> r.challenges[c].expires > r.now
    {
      StoredAtMostEight(tx, u, session, purpose, secret, webauthn);
      hide ChallengesOf;
      var over := Stale(tx, u);
      var secrets := StaleSecrets(tx, u);
      r := DropChallenges(tx, over);
      r := DropSecrets(r, secrets);
      challenge := r.next;
      r := AddChallenge(r, u, session, purpose, secret, webauthn);
    }

    /** newSession: delete the surplus, then insert. The user is left with at most
        twenty sessions. */
    method MintSession(tx: Tables, u: Id, signIn: Kernel.SignIn, mfa: bool) returns (r: Tables, session: Id)
      requires u in tx.users
      ensures r == NewSession(tx, u, signIn, mfa) && session == tx.next
      ensures |SessionsOf(r.sessions, u)| <= 20
    {
      MintedAtMostTwenty(tx, u, signIn, mfa);
      r := DropSessions(tx, Surplus(SessionsOf(tx.sessions, u), 19));
      session := r.next;
      r := AddSession(r, u, signIn, mfa);
    }

    method MfaChallenge(tx: Tables, u: Id, purpose: Purpose, session: Option<Id>, origin: bool)
        returns (r: Tables, y: Reply)
      requires Usable(tx, u)
      ensures (r, y) == Challenged(tx, u, purpose, session, origin)
    {
      r, y := tx, Refused;
      var webauthn := HasKey(tx.factors, u) && origin;
      var methods := [];
      if HasTotp(tx.factors, u) { methods := methods + ["totp"]; }
      if HasCode(tx.codes, u) { methods := methods + ["recovery"]; }
      if webauthn { methods := methods + ["webauthn"]; }
      if !purpose.Bootstrap? && |methods| == 0 { return; }
      var challenge;
      r, challenge := StoreMfaFlow(tx, u, session, purpose, None, webauthn);
      y := Issued(challenge);
    }

    method SignInLocally(u: Id, origin: bool) returns (y: Reply)
      requires Inv(db)
      modifies this
      ensures (db, y) == LocalSession(old(db), u, origin) && Inv(db)
    {
      MfaSteps.LocalSessionKeepsInv(db, u, origin);
      y := Refused;
      var tx := db;
      if !tx.localLogin || !Usable(tx, u) { return; }
      if FactorsOf(tx.factors, u) != {} {
        tx, y := MfaChallenge(tx, u, Login, None, origin);
      } else if tx.mfaRequired {
        tx, y := MfaChallenge(tx, u, Bootstrap, None, origin);
      } else {
        var session;
        tx, session := MintSession(tx, u, Local, false);
        y := SignedIn(session);
      }
      db := tx;
    }

    method BeginMfaEnrollment(who: Enroller, kind: Kind, origin: bool) returns (y: Reply)
      requires Inv(db)
      modifies this
      ensures (db, y) == BeginEnrollment(old(db), who, kind, origin) && Inv(db)
    {
      hide Inv, FactorsOf, HasTotp, StoreFlow, ChallengesOf;
      MfaSteps.BeginEnrollmentKeepsInv(db, who, kind, origin);
      y := Refused;
      var tx := db;
      var u: Id, session: Option<Id>;
      match who {
        case ByChallenge(c) =>
          if !Loadable(tx, c, None) || !tx.challenges[c].purpose.Bootstrap?
            || FactorsOf(tx.factors, tx.challenges[c].user) != {} { return; }
          u, session := tx.challenges[c].user, None;
          tx := DropChallenges(tx, {c});
        case BySession(s, recent) =>
          if !Authentic(tx, s) || !recent { return; }
          u, session := tx.sessions[s].user, Some(s);
      }
      if |FactorsOf(tx.factors, u)| >= MAX_FACTORS || (kind.Totp? && HasTotp(tx.factors, u)) { return; }
      var challenge;
      if kind.Totp? {
        var secret := tx.next;
        tx := AddSecret(tx, Some(tx.now + MFA_TTL));
        tx, challenge := StoreMfaFlow(tx, u, session, EnrollTotp, Some(secret), false);
      } else {
        if !origin { return; }
        tx, challenge := StoreMfaFlow(tx, u, session, EnrollWebAuthn, None, true);
      }
      y := Issued(challenge);
      db := tx;
    }

    /** activateMFA, for a challenge that its proof answered. */
    method ActivateMfa(tx: Tables, c: Id, proof: Proof) returns (r: Tables, factor: Id)
      requires Enrolling(tx, c, proof) && tx.challenges[c].user in tx.users
      ensures r == Activated(tx, c, proof) && factor == NewFactor(tx, c)
    {
      var ch := tx.challenges[c];
      var count := |FactorsOf(tx.factors, ch.user)|;
      r := DropChallenges(tx, {c});
      if ch.purpose.EnrollTotp? {
        factor := ch.secret.value;
        r := r.(secrets := r.secrets[factor := Secret(None)]);
        r := r.(factors := r.factors[factor := Factor(ch.user, Totp, proof.counter)]);
      } else {
        factor := r.next;
        r := AddSecret(r, None);
        r := r.(factors := r.factors[factor := Factor(ch.user, WebAuthn, 0)]);
        assert r.secrets == r.secrets[factor := Secret(None)];
      }
      r := FreshRevision(r, ch.user);
      if count == 0 {
        var codes;
        r, codes := ReplaceRecoveryCodes(r, ch.user);
      }
    }

    method MfaVerify(c: Id, proof: Proof, caller: Option<Id>) returns (y: Reply)
      requires Inv(db)
      modifies this
      ensures (db, y) == Verify(old(db), c, proof, caller) && Inv(db)
    {
      hide Inv, Activated, NewSession, Proves, Unreadable;
      MfaSteps.VerifyKeepsInv(db, c, proof, caller);
      y := Refused;
      var tx := db;
      if !Loadable(tx, c, caller) || tx.challenges[c].purpose.Bootstrap?
        || Unreadable(tx, tx.challenges[c], proof) { return; }
      var ch := tx.challenges[c];
      if !Proves(tx, ch, proof) {
        db := tx.(challenges := tx.challenges[c := ch.(attempts := ch.attempts + 1)]);
        return Failed;
      }
      MfaSteps.LoadableEnrols(tx, c, proof, caller);
      var session;
      if ch.purpose.EnrollTotp? || ch.purpose.EnrollWebAuthn? {
        if |FactorsOf(tx.factors, ch.user)| >= MAX_FACTORS { return; }
        var signIn := if ch.session.None? then Local else tx.sessions[ch.session.value].signIn;
        var factor;
        tx, factor := ActivateMfa(tx, c, proof);
        if ch.session.Some? {
          tx := DropSessions(tx, SessionsOf(tx.sessions, ch.user));
        }
        tx, session := MintSession(tx, ch.user, signIn, true);
        y := Enrolled(factor, session);
      } else {
        tx := DropChallenges(Spend(tx, proof), {c});
        if ch.purpose.Login? {
          tx, session := MintSession(tx, ch.user, Local, true);
          y := SignedIn(session);
        } else {
          y := Granted;
        }
      }
      db := tx;
    }

    method MfaRemove(s: Id, f: Id, ifMatch: Id, recent: bool) returns (y: Reply)
      requires Inv(db)
      modifies this
      ensures (db, y) == Remove(old(db), s, f, ifMatch, recent) && Inv(db)
    {
      hide Inv;
      MfaSteps.RemoveKeepsInv(db, s, f, ifMatch, recent);
      y := Refused;
      var tx := db;
      if !Authentic(tx, s) || !recent { return; }
      var u := tx.sessions[s].user;
      if ifMatch != tx.users[u].mfaRevision { return; }
      var count := |FactorsOf(tx.factors, u)|;
      if tx.mfaRequired && count <= 1 { return; }
      if f !in tx.factors || tx.factors[f].user != u { return; }
      tx := tx.(factors := tx.factors - {f});
      tx := DropSecrets(tx, {f});
      tx := FreshRevision(tx, u);
      if count <= 1 {
        tx := tx.(sessions := map k | k in tx.sessions ::
                    if tx.sessions[k].user == u && tx.sessions[k].signIn.Local? then tx.sessions[k].(mfa := false)
                    else tx.sessions[k]);
        tx := DropCodes(tx, u);
      }
      tx := DropSessions(tx, SessionsOf(tx.sessions, u) - {s});
      db := tx;
      y := Done;
    }

    method MfaRecovery(s: Id, ifMatch: Id, recent: bool) returns (y: Reply)
      requires Inv(db)
      modifies this
      ensures (db, y) == RotateCodes(old(db), s, ifMatch, recent) && Inv(db)
    {
      hide Inv, ReplaceCodes;
      MfaSteps.RotateCodesKeepsInv(db, s, ifMatch, recent);
      y := Refused;
      var tx := db;
      if !Authentic(tx, s) || !recent { return; }
      var u := tx.sessions[s].user;
      if ifMatch != tx.users[u].mfaRevision || FactorsOf(tx.factors, u) == {} { return; }
      var codes;
      tx, codes := ReplaceRecoveryCodes(tx, u);
      assert tx.users == db.users by { ReplacedCodesKeepUsers(db, u); }
      tx := FreshRevision(tx, u);
      db := tx;
      y := Done;
    }

    static lemma ReplacedCodesKeepUsers(t: Tables, u: Id)
      ensures ReplaceCodes(t, u).users == t.users
    {
    }

    /** RecoverPassword: the ids of the secrets are collected before the rows
        that name them are deleted. */
    method RecoverPassword(u: Id, reset: bool) returns (y: Reply)
      requires Inv(db)
      modifies this
      ensures (db, y) == Recover(old(db), u, reset) && Inv(db)
    {
      hide Inv;
      MfaSteps.RecoverKeepsInv(db, u, reset);
      y := Refused;
      var tx := db;
      if u !in tx.users || !tx.users[u].active { return; }
      tx := ChangeUser(tx, u, tx.users[u].(password := true), false);
      if reset {
        var secrets := CollectSecrets(tx, u);
        var gone := set x | x in secrets;
        assert gone == OwnedSecrets(tx, u);
        tx := DropChallenges(tx, ChallengesOf(tx.challenges, u));
        tx := tx.(factors := tx.factors - FactorsOf(tx.factors, u));
        tx := DropCodes(tx, u);
        tx := FreshRevision(tx, u);
        tx := DropSecrets(tx, gone);
      }
      db := tx;
      y := Done;
    }

    /** The loop over the query's rows. */
    method CollectSecrets(tx: Tables, u: Id) returns (ids: seq<Id>)
      ensures forall x :: x in ids <==> x in OwnedSecrets(tx, u)
    {
      ids := [];
      var rows := OwnedSecrets(tx, u);
      while rows != {}
        invariant rows <= OwnedSecrets(tx, u)
        invariant forall x :: x in ids <==> x in OwnedSecrets(tx, u) && x !in rows
        decreases rows
      {
        var x :| x in rows;
        ids := ids + [x];
        rows := rows - {x};
      }
    }
  }
}
