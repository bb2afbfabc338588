/** The handlers that change authority as they run: statements inside a
    transaction under the installation lock, the search for a usable owner, and
    a commit. */
module AuthorityServer {
  import opened Common
  import opened Kernel
  import opened RoleMapping
  import opened Authority
  import opened AuthorityProofs

  class Server {
    const fold: Folding
    var db: Tables

    constructor (fold: Folding, initial: Tables)
      requires Inv(initial)
      ensures this.fold == fold && db == initial
    {
      this.fold := fold;
      db := initial;
    }

    /** usableSAMLOwner: the first row that would sign in as owner ends the loop. */
    method UsableSamlOwner(tx: Tables) returns (usable: bool)
      ensures usable == SamlOwner(fold, tx)
    {
      if tx.saml.None? || !tx.saml.value.enabled || !InDate(tx.saml.value, tx.now) {
        return false;
      }
      var rows := tx.samlIds.Keys;
      while rows != {}
        invariant rows <= tx.samlIds.Keys
        invariant forall k :: k in tx.samlIds && k !in rows ==> !SamlOwns(fold, tx, k)
        decreases rows
      {
        var k :| k in rows;
        if SamlOwns(fold, tx, k) {
          return true;
        }
        rows := rows - {k};
      }
      return false;
    }

    method EnsureUsableOwner(tx: Tables) returns (ok: bool)
      ensures ok == UsableOwner(fold, tx)
    {
      hide SamlOwns, OidcOwns, InDate;
      if LocalOwner(tx) {
        return true;
      }
      var usable := UsableSamlOwner(tx);
      if usable {
        return true;
      }
      if tx.oidc.None? || !tx.oidc.value.enabled {
        return false;
      }
      var rows := tx.oidcIds.Keys;
      while rows != {}
        invariant rows <= tx.oidcIds.Keys
        invariant forall k :: k in tx.oidcIds && k !in rows ==> !OidcOwns(fold, tx, k)
        decreases rows
      {
        var k :| k in rows;
        if OidcOwns(fold, tx, k) {
          return true;
        }
        rows := rows - {k};
      }
      return false;
    }

    /** retireIssuedInvitations: exactly the issuer's pending invitations are
        revoked, and no other row changes. */
    method RetireIssuedInvitations(rows: map<Id, Invitation>, issuer: Id, now: Time) returns (r: map<Id, Invitation>)
      ensures r.Keys == rows.Keys
      ensures forall i ::
                i in rows && rows[i].issuer == issuer && Pending(rows[i], now) ==> r[i] == rows[i].(revoked := true)
      ensures forall i :: i in rows && !(rows[i].issuer == issuer && Pending(rows[i], now)) ==> r[i] == rows[i]
      ensures forall i :: i in r && r[i].issuer == issuer ==> !Pending(r[i], now)
    {
      r := Retired(rows, issuer, now);
    }

    /** The statements that every change of authority makes: the row under a fresh
        entity tag, its sessions, and with `retire` its invitations. The user is
        left with no session, and with `retire` with no pending invitation. */
    method ChangeAuthority(tx: Tables, u: Id, row: User, retire: bool) returns (r: Tables)
      ensures r == Reassign(tx, u, row, retire)
      ensures forall s :: s in r.sessions ==> r.sessions[s].user != u
      ensures retire ==>
                forall i :: i in r.invitations && r.invitations[i].issuer == u ==> !Pending(r.invitations[i], r.now)
    {
      var users := tx.users[u := row.(etag := tx.next)];
      var sessions := tx.sessions - SessionsOf(tx.sessions, u);
      var invitations := tx.invitations;
      if retire {
        invitations := RetireIssuedInvitations(tx.invitations, u, tx.now);
        assert invitations == Retired(tx.invitations, u, tx.now);
      }
      hide Pending;
      r := tx.(next := tx.next + 1, users := users, sessions := sessions, invitations := invitations);
    }

    method Update(actor: Id, u: Id, ifMatch: Id, c: Change) returns (y: Reply)
      requires Inv(db)
      modifies this`db
      ensures (db, y) == UpdateUser(fold, old(db), actor, u, ifMatch, c) && Inv(db)
    {
      hide Inv, UsableOwner, SessionsOf, Pending, Changed;
      UpdateKeepsInv(fold, db, actor, u, ifMatch, c);
      y := Refused;
      var tx := db;
      if c == Change(None, None, None) || u !in tx.users || actor !in tx.users
        || ifMatch != tx.users[u].etag { return; }
      var p := tx.users[actor];
      var row := Changed(tx.users[u], c);
      if u == actor && (!row.active || row.role != p.role || row.scope != p.scope) { return; }
      tx := tx.(next := tx.next + 1, users := tx.users[u := row.(etag := tx.next)]);
      var ok := EnsureUsableOwner(tx);
      var sessions, invitations := tx.sessions - SessionsOf(tx.sessions, u), tx.invitations;
      var lost := !row.active || row.role != Owner || row.scope != Global;
      if lost {
        invitations := RetireIssuedInvitations(invitations, u, tx.now);
        assert invitations == Retired(db.invitations, u, db.now);
      }
      hide Retired;
      tx := tx.(sessions := sessions, invitations := invitations);
      assert tx == Reassign(db, u, row, lost);
      GuardIgnoresSessions(fold, db, u, row, lost);
      if !ok { return; }
      db := tx;
      y := Done;
    }

    /** The owner search reads neither sessions nor invitations. */
    static lemma GuardIgnoresSessions(fold: Folding, t: Tables, u: Id, row: User, retire: bool)
      ensures UsableOwner(fold, Reassign(t, u, row, retire)) ==
              UsableOwner(fold, t.(next := t.next + 1, users := t.users[u := row.(etag := t.next)]))
    {
      hide InDate, SamlSignInRole, OidcSignInRole, Retired, SessionsOf;
      var t1, t2 := Reassign(t, u, row, retire), t.(next := t.next + 1, users := t.users[u := row.(etag := t.next)]);
      assert forall key :: SamlOwns(fold, t1, key) == SamlOwns(fold, t2, key);
      assert forall key :: OidcOwns(fold, t1, key) == OidcOwns(fold, t2, key);
    }

    method Deprovision(key: (string, string)) returns (y: Reply)
      requires Inv(db)
      modifies this`db
      ensures (db, y) == DeprovisionUser(fold, old(db), key) && Inv(db)
    {
      hide Inv, UsableOwner, Reassign;
      DeprovisionKeepsInv(fold, db, key);
      y := Refused;
      var tx := db;
      if key !in tx.provisioned || tx.provisioned[key] !in tx.users { return; }
      var u := tx.provisioned[key];
      if tx.users[u].management != ByProvisioning { return; }
      var row := tx.users[u].(active := false);
      tx := ChangeAuthority(tx, u, row, true);
      var ok := EnsureUsableOwner(tx);
      if !ok { return; }
      db := tx;
      y := Done;
    }

    method CreateInvitation(issuer: Id, email: string, role: Role, hours: nat) returns (y: Reply)
      requires Inv(db)
      modifies this`db
      ensures (db, y) == Invite(old(db), issuer, email, role, hours) && Inv(db)
    {
      hide Inv;
      InviteKeepsInv(db, issuer, email, role, hours);
      y := Refused;
      if !(1 <= hours <= 720) || issuer !in db.users || !IsOwner(db.users[issuer]) || !LocalLogin(db)
        || Taken(db.users, email) { return; }
      var id := db.next;
      var rows := map i | i in db.invitations ::
        if db.invitations[i].email == email && Open(db.invitations[i]) then db.invitations[i].(revoked := true)
        else db.invitations[i];
      rows := rows[id := Invitation(email, role, issuer, db.now + 3600 * hours, false, false)];
      assert rows == Invite(db, issuer, email, role, hours).0.invitations;
      db := db.(next := id + 1, invitations := rows);
      y := Done;
    }

    method Retire(i: Id) returns (y: Reply)
      requires Inv(db)
      modifies this`db
      ensures (db, y) == RetireInvitation(old(db), i) && Inv(db)
    {
      hide Inv;
      RetireKeepsInv(db, i);
      if i !in db.invitations || db.invitations[i].accepted { return Refused; }
      if !db.invitations[i].revoked {
        db := db.(invitations := db.invitations[i := db.invitations[i].(revoked := true)]);
      } else {
        assert db.invitations == db.invitations[i := db.invitations[i].(revoked := true)];
      }
      return Done;
    }

    method NewSession(tx: Tables, u: Id, signIn: Kernel.SignIn, mfa: bool) returns (r: Tables, session: Id)
      requires u in tx.users
      ensures r == Mint(tx, u, signIn, mfa) && session == tx.next
    {
      hide Surplus, SessionsOf;
      r := tx.(sessions := tx.sessions - Surplus(SessionsOf(tx.sessions, u), 19));
      session := r.next;
      r := r.(next := session + 1,
        sessions := r.sessions[session := Session(u, signIn, mfa, r.now + SESSION_TTL, StandingOf(r.users[u]))]);
    }

    method Accept(i: Id, mint: bool) returns (y: Reply)
      requires Inv(db)
      modifies this`db
      ensures (db, y) == AcceptInvitation(old(db), i, mint) && Inv(db)
    {
      AcceptKeepsInv(db, i, mint);
      hide Inv, Mint, Taken;
      y := Refused;
      var tx := db;
      if !LocalLogin(tx) { return; }
      if i !in tx.invitations || !Pending(tx.invitations[i], tx.now) { return; }
      var inv := tx.invitations[i];
      if Taken(tx.users, inv.email) { return; }
      var u := tx.next;
      tx := Insert(tx, NewUser(inv.email, inv.role, true, ByHand, true, 0));
      tx := tx.(invitations := tx.invitations[i := inv.(accepted := true)]);
      y := Done;
      if mint {
        var session;
        tx, session := NewSession(tx, u, Local, false);
        y := SignedIn(session);
      }
      db := tx;
    }

    method Provision(key: (string, string), email: string, role: Role, active: bool) returns (y: Reply)
      requires Inv(db)
      modifies this`db
      ensures (db, y) == ProvisionUser(fold, old(db), key, email, role, active) && Inv(db)
    {
      ProvisionKeepsInv(fold, db, key, email, role, active);
      hide Inv, UsableOwner, Reassign, Taken;
      y := Refused;
      var tx := db;
      if key in tx.provisioned && tx.provisioned[key] in tx.users {
        var u := tx.provisioned[key];
        if tx.users[u].management != ByProvisioning || Taken(tx.users - {u}, email) { return; }
        var row := tx.users[u].(email := email, role := role, active := active);
        tx := ChangeAuthority(tx, u, row, !active || role != Owner);
      } else {
        if Taken(tx.users, email) { return; }
        var u := tx.next;
        tx := Insert(tx, NewUser(email, role, active, ByProvisioning, false, 0));
        tx := tx.(provisioned := tx.provisioned[key := u]);
      }
      var ok := EnsureUsableOwner(tx);
      if !ok { return; }
      db := tx;
      y := Done;
    }

    method PutOidcConfiguration(c: OidcConfig, input: ClientSecret) returns (y: Reply)
      requires Inv(db)
      modifies this`db
      ensures (db, y) == PutOidc(fold, old(db), c, input) && Inv(db)
    {
      PutOidcKeepsInv(fold, db, c, input);
      hide Inv, UsableOwner, Validated, WithoutClaims;
      y := Refused;
      if "openid" !in c.scopes || !Validated(fold, c.policy) { return; }
      var tx := db;
      if !input.Keep? {
        var secret := NewSecret(tx.secret, input);
        if secret != tx.secret {
          tx := tx.(oidcIds := WithoutClaims(tx.oidcIds));
        }
        tx := tx.(secret := secret);
      }
      tx := tx.(oidc := Some(c.(hasSecret := tx.secret.Some?)));
      var ok := EnsureUsableOwner(tx);
      if !ok { return; }
      db := tx;
      y := Done;
    }

    method StoreSamlDefinition(c: SamlConfig) returns (y: Reply)
      requires Inv(db)
      modifies this`db
      ensures (db, y) == PutSaml(fold, old(db), c) && Inv(db)
    {
      PutSamlKeepsInv(fold, db, c);
      hide Inv, UsableOwner, Validated, InDate, WithoutFacts;
      y := Refused;
      if !Validated(fold, c.policy) || !InDate(c, db.now) { return; }
      var tx := db.(saml := Some(c));
      if db.saml.None? || db.saml.value.entity != c.entity
         || db.saml.value.emailAttribute != c.emailAttribute || db.saml.value.groupsAttribute != c.groupsAttribute {
        tx := tx.(samlIds := WithoutFacts(tx.samlIds));
      }
      var ok := EnsureUsableOwner(tx);
      ghost var guarded := tx;
      if !c.enabled {
        var gone := set s | s in tx.sessions && tx.sessions[s].signIn == Saml;
        tx := tx.(sessions := tx.sessions - gone);
      }
      SessionsDoNotMatter(fold, guarded, tx.sessions);
      if !ok { return; }
      db := tx;
      y := Done;
    }

    static lemma SessionsDoNotMatter(fold: Folding, t: Tables, sessions: map<Id, Session>)
      ensures UsableOwner(fold, t.(sessions := sessions)) == UsableOwner(fold, t)
    {
      hide InDate, SamlSignInRole, OidcSignInRole;
      var t' := t.(sessions := sessions);
      assert forall key :: SamlOwns(fold, t', key) == SamlOwns(fold, t, key);
      assert forall key :: OidcOwns(fold, t', key) == OidcOwns(fold, t, key);
    }

    /** syncFederatedAuthority inside a provider sign-in's transaction. */
    method SyncFederatedAuthority(tx: Tables, u: Id, mapped: Option<Role>, source: Management)
        returns (r: Tables, changed: bool, allowed: bool)
      requires Inv(tx) && u in tx.users
      ensures r == Apply(tx, u, Synced(tx.users[u], mapped, source)) && Inv(r)
      ensures changed == Synced(tx.users[u], mapped, source).changed
              && allowed == Synced(tx.users[u], mapped, source).allowed
    {
      hide Inv, Reassign;
      ApplyKeepsInv(tx, u, mapped, source);
      var row := tx.users[u];
      if row.management != source { return tx, false, true; }
      allowed := mapped.Some?;
      if allowed == row.authorized && (!allowed || mapped.value == row.role) { return tx, false, allowed; }
      var role := if allowed then mapped.value else row.role;
      r := ChangeAuthority(tx, u, row.(role := role, authorized := allowed), !allowed || role != Owner);
      changed := true;
    }

    /** changeSignInMethod. */
    method ChangeSignInMethod(tx: Tables, u: Id, signIn: Kernel.SignIn, mfa: bool) returns (r: Tables, session: Id)
      requires u in tx.users
      ensures r == Rotate(tx, u, tx.users[u], signIn, mfa) && session == tx.next + 1
    {
      hide Mint, SessionsOf;
      r := tx.(next := tx.next + 1, users := tx.users[u := tx.users[u].(etag := tx.next)]);
      r := r.(sessions := r.sessions - SessionsOf(r.sessions, u));
      r, session := NewSession(r, u, signIn, mfa);
    }

    static lemma RotationDoesNotMatter(fold: Folding, t: Tables, u: Id, signIn: Kernel.SignIn, mfa: bool)
      requires u in t.users
      ensures UsableOwner(fold, Rotate(t, u, t.users[u], signIn, mfa)) == UsableOwner(fold, t)
    {
      hide InDate, SamlSignInRole, OidcSignInRole, Surplus, SessionsOf;
      var t' := Rotate(t, u, t.users[u], signIn, mfa);
      assert forall v :: v in t'.users <==> v in t.users;
      assert forall v :: v in t.users ==> t'.users[v] == t.users[v].(etag := t'.users[v].etag);
      assert forall key :: SamlOwns(fold, t', key) == SamlOwns(fold, t, key);
      assert forall key :: OidcOwns(fold, t', key) == OidcOwns(fold, t, key);
    }

    /** The owner search and the rotation that end both unlinkings. */
    method FinishUnlink(before: Tables, tx: Tables, u: Id, signIn: Kernel.SignIn, mfa: bool)
        returns (r: Tables, y: Reply)
      requires u in tx.users
      ensures (r, y) == Protect(fold, before, Rotate(tx, u, tx.users[u], signIn, mfa), SignedIn(tx.next + 1))
    {
      hide UsableOwner, Rotate;
      var ok := EnsureUsableOwner(tx);
      RotationDoesNotMatter(fold, tx, u, signIn, mfa);
      if !ok { return before, Refused; }
      var session;
      r, session := ChangeSignInMethod(tx, u, signIn, mfa);
      y := SignedIn(session);
    }

    static lemma UnlinkOidcKeepsInv(fold: Folding, t: Tables, s: Id, key: (string, string))
      requires Inv(t)
      ensures Inv(UnlinkOidc(fold, t, s, key).0)
    {
      hide Inv, UnlinkOidc;
      UnlinkKeepsInv(fold, t, DropOidc(s, key));
    }

    static lemma UnlinkSamlKeepsInv(fold: Folding, t: Tables, s: Id, key: (string, string))
      requires Inv(t)
      ensures Inv(UnlinkSaml(fold, t, s, key).0)
    {
      hide Inv, UnlinkSaml;
      UnlinkKeepsInv(fold, t, DropSaml(s, key));
    }

    method UnlinkOidcIdentity(s: Id, key: (string, string)) returns (y: Reply)
      requires Inv(db)
      modifies this`db
      ensures (db, y) == UnlinkOidc(fold, old(db), s, key) && Inv(db)
    {
      hide Inv, Protect, OidcPath, SamlPath, LocalPath, Rotate;
      UnlinkOidcKeepsInv(fold, db, s, key);
      y := Refused;
      var tx := db;
      if !Live(tx, s) || key !in tx.oidcIds || tx.oidcIds[key].user != tx.sessions[s].user { return; }
      var u, strength := tx.sessions[s].user, tx.sessions[s];
      tx := tx.(oidcIds := tx.oidcIds - {key});
      var byHand := tx.users[u].management != ByOidc;
      if !LocalPath(tx, u) || !byHand {
        var saml := if byHand then SamlPath(fold, tx, u) else false;
        if !OidcPath(fold, tx, u) && !saml { return; }
      }
      db, y := FinishUnlink(db, tx, u, strength.signIn, strength.mfa);
    }

    method UnlinkSamlIdentity(s: Id, key: (string, string)) returns (y: Reply)
      requires Inv(db)
      modifies this`db
      ensures (db, y) == UnlinkSaml(fold, old(db), s, key) && Inv(db)
    {
      hide Inv, Protect, OidcPath, SamlLinked, LocalPath, Rotate;
      UnlinkSamlKeepsInv(fold, db, s, key);
      y := Refused;
      var tx := db;
      if !Live(tx, s) || key !in tx.samlIds || tx.samlIds[key].user != tx.sessions[s].user { return; }
      var u, strength := tx.sessions[s].user, tx.sessions[s];
      tx := tx.(samlIds := tx.samlIds - {key});
      var byHand := tx.users[u].management != BySaml;
      if !LocalPath(tx, u) || !byHand {
        var oidc := if byHand then OidcPath(fold, tx, u) else false;
        if !oidc && !SamlLinked(fold, tx, u) { return; }
      }
      db, y := FinishUnlink(db, tx, u, strength.signIn, strength.mfa);
    }

    static lemma RecordingKeepsInv(t: Tables, key: (string, string), id: OidcIdentity)
      requires Inv(t) && id.user in t.users
      ensures Inv(t.(oidcIds := t.oidcIds[key := id]))
    {
      hide Vouched, OnePerEmail, Current;
    }

    /** The last transaction of oidcCallback for an identity already linked. */
    method OidcKnownIdentity(key: (string, string), claims: OidcClaims, how: How) returns (y: Reply)
      requires Inv(db) && db.oidc.Some? && key in db.oidcIds && db.oidcIds[key].user in db.users
      modifies this`db
      ensures (db, y) == OidcKnown(fold, old(db), key, claims, how) && Inv(db)
    {
      OidcKnownKeepsInv(fold, db, key, claims, how);
      RecordingKeepsInv(db, key, OidcIdentity(db.oidcIds[key].user, Some(claims)));
      hide Inv, Mapped, Mint, Synced, Reassign;
      var u := db.oidcIds[key].user;
      var tx := db.(oidcIds := db.oidcIds[key := OidcIdentity(u, Some(claims))]);
      if how.LinkBy? { return Refused; }
      var mapped := MappedRole(fold, db.oidc.value.policy, claims.email, claims.groups);
      var changed, allowed;
      tx, changed, allowed := SyncFederatedAuthority(tx, u, mapped, ByOidc);
      if !allowed || (changed && how.ReauthenticateBy?) {
        db := tx;
        return Denied;
      }
      if how.ReauthenticateBy? {
        db := tx;
        return Granted;
      }
      if !db.users[u].active { return Refused; }
      assert u in tx.users by { SyncKeepsUser(db.(oidcIds := db.oidcIds[key := OidcIdentity(u, Some(claims))]), u,
             mapped, ByOidc); }
      var session;
      tx, session := NewSession(tx, u, SignIn.Oidc, false);
      db := tx;
      return SignedIn(session);
    }

    static lemma SyncKeepsUser(t: Tables, u: Id, mapped: Option<Role>, source: Management)
      requires u in t.users
      ensures u in Apply(t, u, Synced(t.users[u], mapped, source)).users
    {
    }

    /** acceptSAML once the account is known: follow the provider, then grant,
        link or sign in. Only a denial commits what a refusal rolls back. */
    method FollowSaml(tx: Tables, u: Id, facts: SamlFacts, how: How) returns (r: Tables, y: Reply)
      requires Inv(tx) && tx.saml.Some? && u in tx.users
      ensures (r, y) == SamlFollowed(fold, tx, u, facts, how)
    {
      hide Inv, Mapped, Mint, Rotate, Synced, Reassign;
      var mapped := MappedRole(fold, tx.saml.value.policy, facts.email, facts.groups);
      var changed, allowed;
      r, changed, allowed := SyncFederatedAuthority(tx, u, mapped, BySaml);
      SyncKeepsUser(tx, u, mapped, BySaml);
      if !allowed || (changed && how.ReauthenticateBy?) { return r, Denied; }
      if !r.users[u].active || !r.users[u].authorized { return tx, Refused; }
      if how.ReauthenticateBy? { return r, Granted; }
      var session;
      if how.LinkBy? {
        r, session := ChangeSignInMethod(r, u, SignIn.Saml, false);
      } else {
        r, session := NewSession(r, u, SignIn.Saml, false);
      }
      return r, SignedIn(session);
    }
  }
}
