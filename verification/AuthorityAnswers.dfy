/** Exactly when the authority handlers commit, and what they write, told on the
    rows. */
module AuthorityAnswers {
  import opened Common
  import opened Kernel
  import opened RoleMapping
  import opened Authority
  import opened AuthorityProofs
  import opened UsableOwners
  import opened Grants

  /** The owner search reads users, identities, configuration and the clock. */
  lemma GuardReads(fold: Folding, t: Tables, t': Tables)
    requires t'.now == t.now && t'.switch == t.switch && t'.localLogin == t.localLogin && t'.users == t.users
    requires t'.oidc == t.oidc && t'.saml == t.saml && t'.oidcIds == t.oidcIds && t'.samlIds == t.samlIds
    ensures UsableOwner(fold, t') == UsableOwner(fold, t)
  {
    hide InDate, SamlSignInRole, OidcSignInRole, IsOwner;
    assert forall key :: SamlOwns(fold, t', key) == SamlOwns(fold, t, key);
    assert forall key :: OidcOwns(fold, t', key) == OidcOwns(fold, t, key);
  }

  function UpdatedRow(row: User, c: Change, etag: Id): User {
    User(row.email,
         if c.role.Some? then c.role.value else row.role,
         if c.active.Some? then c.active.value else row.active,
         row.authorized,
         if c.scope.Some? then c.scope.value else row.scope,
         if row.management == ByProvisioning then ByHand else row.management,
         row.password, etag, row.mfaRevision)
  }

  /** The user is left without sessions, and with `lost` without pending
      invitations; nobody else's change. */
  predicate CutOff(t: Tables, t': Tables, u: Id, lost: bool) {
    && t'.sessions == (map s | s in t.sessions && t.sessions[s].user != u :: t.sessions[s])
    && t'.invitations.Keys == t.invitations.Keys
    && forall i :: i in t.invitations ==>
         t'.invitations[i] ==
         if lost && t.invitations[i].issuer == u && Pending(t.invitations[i], t.now) then
           t.invitations[i].(revoked := true)
         else t.invitations[i]
  }

  lemma ReassignCutsOff(t: Tables, u: Id, row: User, retire: bool)
    ensures CutOff(t, Reassign(t, u, row, retire), u, retire)
  {
  }

  lemma ReassignGuard(fold: Folding, t: Tables, u: Id, row: User, retire: bool)
    ensures UsableOwner(fold, Reassign(t, u, row, retire)) == UsableOwner(fold,
            t.(users := t.users[u := row.(etag := t.next)]))
  {
    hide UsableOwner, SessionsOf, Retired;
    GuardReads(fold, t.(users := t.users[u := row.(etag := t.next)]), Reassign(t, u, row, retire));
  }

  /** An update commits if and only if both users are there, it asks for something,
      the tag is the present one, nobody disables, demotes or narrows themself, and
      a usable owner remains. It gives the user what was asked, ends their
      sessions, and retires their invitations if they are no longer an active,
      global owner. */
  lemma UpdateCommitsExactlyWhen(fold: Folding, t: Tables, actor: Id, u: Id, ifMatch: Id, c: Change)
    ensures var (t', y) := Step(fold, t, Update(actor, u, ifMatch, c));
            && (y.Done? <==>
                  && u in t.users && actor in t.users && (c.role.Some? || c.active.Some? || c.scope.Some?)
                  && ifMatch == t.users[u].etag
                  && var row := UpdatedRow(t.users[u], c, t.next);
                  && (u == actor ==> row.active && row.role == t.users[u].role && row.scope == t.users[u].scope)
                  && UsableOwner(fold, t.(users := t.users[u := row])))
            && (y.Done? || (y.Refused? && t' == t))
            && (y.Done? ==>
                  var row := UpdatedRow(t.users[u], c, t.next);
                  t'.users == t.users[u := row]
                    && CutOff(t, t', u, !row.active || row.role != Owner || row.scope != Global))
  {
    hide UsableOwner, Reassign, CutOff;
    if u in t.users {
      var row := Changed(t.users[u], c);
      assert row.(etag := t.next) == UpdatedRow(t.users[u], c, t.next);
      var lost := !row.active || row.role != Owner || row.scope != Global;
      ReassignGuard(fold, t, u, row, lost);
      ReassignCutsOff(t, u, row, lost);
      ReassignWrites(t, u, row, lost);
    }
  }

  lemma ReassignWrites(t: Tables, u: Id, row: User, retire: bool)
    ensures Reassign(t, u, row, retire).users == t.users[u := row.(etag := t.next)]
  {
  }

  /** Deprovisioning commits if and only if the account is still provisioned and a
      usable owner remains: it disables the account and cuts it off. */
  lemma DeprovisionCommitsExactlyWhen(fold: Folding, t: Tables, key: (string, string))
    ensures var (t', y) := Step(fold, t, Deprovision(key));
            && (y.Done? <==>
                  && key in t.provisioned && t.provisioned[key] in t.users
                  && t.users[t.provisioned[key]].management == ByProvisioning
                  && UsableOwner(fold, t.(users := t.users[t.provisioned[key] :=
                       t.users[t.provisioned[key]].(active := false, etag := t.next)])))
            && (y.Done? || (y.Refused? && t' == t))
            && (y.Done? ==>
                  var u := t.provisioned[key];
                  t'.users == t.users[u := t.users[u].(active := false, etag := t.next)] && CutOff(t, t', u, true))
  {
    hide UsableOwner, Reassign, CutOff;
    if key in t.provisioned && t.provisioned[key] in t.users {
      var u := t.provisioned[key];
      var row := t.users[u].(active := false);
      ReassignGuard(fold, t, u, row, true);
      ReassignCutsOff(t, u, row, true);
      ReassignWrites(t, u, row, true);
    }
  }

  /** Local sign-in is switched as asked if and only if a usable owner remains. */
  lemma AllowCommitsExactlyWhen(fold: Folding, t: Tables, enabled: bool)
    ensures var (t', y) := Step(fold, t, Allow(enabled));
            if UsableOwner(fold, t.(localLogin := enabled)) then y == Done && t' == t.(localLogin := enabled)
            else y == Refused && t' == t
  {
    hide UsableOwner;
  }

  /** The tables `w` hold the OIDC configuration given, with or without a secret as
      told, and void the claims of earlier sign-ins exactly when the secret is
      another. */
  predicate OidcConfigured(t: Tables, c: OidcConfig, input: ClientSecret, w: Tables) {
    && w.secret == (match input case Keep => t.secret case Remove => None case Replace(x) => Some(x))
    && w.oidc == Some(c.(hasSecret := w.secret.Some?)) && w.oidcIds.Keys == t.oidcIds.Keys
    && (forall k :: k in t.oidcIds ==>
          && w.oidcIds[k].user == t.oidcIds[k].user
          && w.oidcIds[k].claims == if w.secret != t.secret then None else t.oidcIds[k].claims)
    && w == t.(oidc := w.oidc, secret := w.secret, oidcIds := w.oidcIds)
  }

  lemma OidcConfiguredTables(t: Tables, c: OidcConfig, input: ClientSecret) returns (w: Tables)
    ensures OidcConfigured(t, c, input, w)
  {
    var secret := NewSecret(t.secret, input);
    var ids := if secret != t.secret then WithoutClaims(t.oidcIds) else t.oidcIds;
    w := t.(oidc := Some(c.(hasSecret := secret.Some?)), secret := secret, oidcIds := ids);
  }

  /** An OIDC configuration is stored if and only if it asks for openid, its policy
      is valid, and a usable owner remains. */
  lemma OidcConfigurationMeans(fold: Folding, t: Tables, c: OidcConfig, input: ClientSecret, w: Tables)
    requires OidcConfigured(t, c, input, w)
    ensures Step(fold, t, ConfigureOidc(c, input)) ==
            if "openid" in c.scopes && Validated(fold, c.policy) && UsableOwner(fold, w) then (w, Done)
            else (t, Refused)
  {
    hide UsableOwner, Validated;
    assert w.oidcIds == if w.secret != t.secret then WithoutClaims(t.oidcIds) else t.oidcIds;
  }

  /** The tables `w` hold the SAML configuration given, void the facts of earlier
      sign-ins exactly when the provider or an attribute is another, and have no
      SAML session if it is disabled. */
  predicate SamlConfigured(t: Tables, c: SamlConfig, w: Tables) {
    && w.saml == Some(c) && w.samlIds.Keys == t.samlIds.Keys
    && (forall k :: k in t.samlIds ==>
          && w.samlIds[k].user == t.samlIds[k].user
          && w.samlIds[k].facts == if SameSource(t.saml, c) then t.samlIds[k].facts else None)
    && w.sessions == OpenSessions(t.sessions, c.enabled)
    && w == t.(saml := w.saml, samlIds := w.samlIds, sessions := w.sessions)
  }

  function OpenSessions(sessions: map<Id, Session>, enabled: bool): map<Id, Session> {
    map s | s in sessions && (enabled || sessions[s].signIn != Saml) :: sessions[s]
  }

  lemma SamlConfiguredTables(t: Tables, c: SamlConfig) returns (w: Tables)
    ensures SamlConfigured(t, c, w)
  {
    hide WithoutFacts, OpenSessions, SameSource;
    VoidedFacts(t.samlIds);
    var ids := if SameSource(t.saml, c) then t.samlIds else WithoutFacts(t.samlIds);
    w := t.(saml := Some(c), samlIds := ids, sessions := OpenSessions(t.sessions, c.enabled));
  }

  lemma SamlTables(t: Tables, c: SamlConfig, w: Tables)
    requires SamlConfigured(t, c, w)
    ensures w.samlIds == if SameSource(t.saml, c) then t.samlIds else WithoutFacts(t.samlIds)
  {
    hide WithoutFacts, OpenSessions, SameSource;
    VoidedFacts(t.samlIds);
  }

  /** A SAML configuration is stored if and only if it is in date, its policy is
      valid, and a usable owner remains. */
  lemma SamlConfigurationMeans(fold: Folding, t: Tables, c: SamlConfig, w: Tables)
    requires SamlConfigured(t, c, w)
    ensures Step(fold, t, ConfigureSaml(c)) ==
            if InDate(c, t.now) && Validated(fold, c.policy) && UsableOwner(fold, w) then (w, Done) else (t, Refused)
  {
    hide UsableOwner, Validated, InDate, WithoutFacts, OpenSessions, SamlConfigured;
    SamlTables(t, c, w);
    EndedSessions(t.sessions, c.enabled);
    assert w == t.(saml := Some(c), samlIds := w.samlIds, sessions := OpenSessions(t.sessions, c.enabled)) by {
      OnlyConfigured(t, c, w);
    }
  }

  lemma OnlyConfigured(t: Tables, c: SamlConfig, w: Tables)
    requires SamlConfigured(t, c, w)
    ensures w == t.(saml := Some(c), samlIds := w.samlIds, sessions := OpenSessions(t.sessions, c.enabled))
  {
    hide OpenSessions, SameSource;
  }

  lemma VoidedFacts(ids: map<(string, string), SamlIdentity>)
    ensures WithoutFacts(ids).Keys == ids.Keys
    ensures forall k :: k in ids ==> WithoutFacts(ids)[k] == SamlIdentity(ids[k].user, None)
  {
  }

  lemma EndedSessions(sessions: map<Id, Session>, enabled: bool)
    ensures OpenSessions(sessions, enabled) ==
            if enabled then sessions else sessions - set s | s in sessions && sessions[s].signIn == Saml
  {
  }

  predicate SameSource(before: Option<SamlConfig>, c: SamlConfig) {
    && before.Some? && before.value.entity == c.entity && before.value.emailAttribute == c.emailAttribute
    && before.value.groupsAttribute == c.groupsAttribute
  }

  /** A password signs a user in if and only if local sign-in is on and the user is
      active, authorized and has one. */
  lemma LogInAnswersExactly(fold: Folding, t: Tables, u: Id, mint: bool)
    requires Inv(t)
    ensures var (t', y) := Step(fold, t, LogIn(u, mint));
            && (!y.Refused? <==>
                  t.switch && t.localLogin && u in t.users && t.users[u].active && t.users[u].authorized
                    && t.users[u].password)
            && (y.Refused? ==> t' == t) && (y.SignedIn? <==> mint && !y.Refused?)
            && (y.SignedIn? ==> OneNewSession(t, t', y.session, u)) && (y.Done? ==> t' == t)
  {
    hide Vouched, OnePerEmail, Current, Linked, Mint;
    if u in t.users {
      MintMeans(t, u, Local, false);
    }
  }

  /** An identity is unlinked if and only if the session is live and the identity
      is its user's own, a way to sign in that the handler counts remains without
      it, and so does a usable owner; then it alone goes. */
  lemma UnlinkOidcExactlyWhen(fold: Folding, t: Tables, s: Id, key: (string, string))
    ensures var (t', y) := Step(fold, t, DropOidc(s, key)); var without := t.(oidcIds := t.oidcIds - {key});
            && (y.SignedIn? <==>
                  && Live(t, s) && key in t.oidcIds && t.oidcIds[key].user == t.sessions[s].user
                  && var u := t.sessions[s].user;
                  && (OidcPath(fold, without, u)
                      || (t.users[u].management != ByOidc && (LocalPath(t, u) || SamlPath(fold, without, u))))
                  && UsableOwner(fold, without.(users := t.users[u := t.users[u].(etag := t.next)])))
            && (y.SignedIn? || (y.Refused? && t' == t))
            && (y.SignedIn? ==> t'.oidcIds == t.oidcIds - {key} && t'.samlIds == t.samlIds)
  {
    hide UsableOwner, Rotate, OidcPath, SamlPath;
    if Live(t, s) {
      var u, a := t.sessions[s].user, t.sessions[s];
      RotateGuard(fold, t.(oidcIds := t.oidcIds - {key}), u, a.signIn, a.mfa);
    }
  }

  lemma UnlinkSamlExactlyWhen(fold: Folding, t: Tables, s: Id, key: (string, string))
    ensures var (t', y) := Step(fold, t, DropSaml(s, key)); var without := t.(samlIds := t.samlIds - {key});
            && (y.SignedIn? <==>
                  && Live(t, s) && key in t.samlIds && t.samlIds[key].user == t.sessions[s].user
                  && var u := t.sessions[s].user;
                  && (SamlLinked(fold, without, u)
                      || (t.users[u].management != BySaml && (LocalPath(t, u) || OidcPath(fold, without, u))))
                  && UsableOwner(fold, without.(users := t.users[u := t.users[u].(etag := t.next)])))
            && (y.SignedIn? || (y.Refused? && t' == t))
            && (y.SignedIn? ==> t'.samlIds == t.samlIds - {key} && t'.oidcIds == t.oidcIds)
  {
    hide UsableOwner, Rotate, OidcPath, SamlLinked;
    if Live(t, s) {
      var u, a := t.sessions[s].user, t.sessions[s];
      RotateGuard(fold, t.(samlIds := t.samlIds - {key}), u, a.signIn, a.mfa);
    }
  }

  lemma RotateGuard(fold: Folding, t: Tables, u: Id, signIn: Kernel.SignIn, mfa: bool)
    requires u in t.users
    ensures var t' := Rotate(t, u, t.users[u], signIn, mfa);
            && UsableOwner(fold, t') == UsableOwner(fold, t.(users := t.users[u := t.users[u].(etag := t.next)]))
            && t'.oidcIds == t.oidcIds && t'.samlIds == t.samlIds
  {
    hide UsableOwner, SessionsOf, Surplus;
    GuardReads(fold, t.(users := t.users[u := t.users[u].(etag := t.next)]), Rotate(t, u, t.users[u], signIn, mfa));
  }

  /** Provisioning an account again commits if and only if it is still provisioned,
      nobody else has the email, and a usable owner remains; it gives the account
      what was asked and cuts it off. */
  lemma ReprovisionCommitsExactlyWhen(
    fold: Folding, t: Tables, key: (string, string), email: string, role: Role, active: bool)
    requires key in t.provisioned && t.provisioned[key] in t.users
    ensures var (t', y) := Step(fold, t, Provision(key, email, role, active)); var u := t.provisioned[key];
            var row := t.users[u].(email := email, role := role, active := active, etag := t.next);
            && (y.Done? <==>
                  && t.users[u].management == ByProvisioning && Free(t.users - {u}, email)
                  && UsableOwner(fold, t.(users := t.users[u := row])))
            && (y.Done? || (y.Refused? && t' == t))
            && (y.Done? ==>
                  t'.users == t.users[u := row] && t'.provisioned == t.provisioned
                    && CutOff(t, t', u, !active || role != Owner))
  {
    hide UsableOwner, Reassign, CutOff, Taken, Free;
    var u := t.provisioned[key];
    var row := t.users[u].(email := email, role := role, active := active);
    NotTakenIsFree(t.users - {u}, email);
    ReassignGuard(fold, t, u, row, !active || role != Owner);
    ReassignCutsOff(t, u, row, !active || role != Owner);
    ReassignWrites(t, u, row, !active || role != Owner);
    ReassignKeepsProvisioned(t, u, row, !active || role != Owner);
  }

  lemma NotTakenIsFree(users: map<Id, User>, email: string)
    ensures Free(users, email) <==> !Taken(users, email)
  {
  }

  /** Provisioning a new account commits if and only if nobody has the email and a
      usable owner remains; exactly one user is new, as asked. */
  lemma ProvisionCommitsExactlyWhen(
    fold: Folding, t: Tables, key: (string, string), email: string, role: Role, active: bool)
    requires !(key in t.provisioned && t.provisioned[key] in t.users)
    ensures var (t', y) := Step(fold, t, Provision(key, email, role, active)); var u := t.next;
            var row := User(email, role, active, true, Global, ByProvisioning, false, u + 1, u + 1);
            && (y.Done? <==> Free(t.users, email) && UsableOwner(fold, t.(users := t.users[u := row])))
            && (y.Done? || (y.Refused? && t' == t))
            && (y.Done? ==>
                  && t'.users == t.users[u := row] && t'.provisioned == t.provisioned[key := u]
                  && t'.sessions == t.sessions && t'.invitations == t.invitations)
  {
    hide UsableOwner, Taken, Free;
    NotTakenIsFree(t.users, email);
    var t1 := Insert(t,
      NewUser(email, role, active, ByProvisioning, false, 0)).(provisioned := t.provisioned[key := t.next]);
    GuardReads(fold, t.(users := t1.users), t1);
  }

  lemma ReassignKeepsProvisioned(t: Tables, u: Id, row: User, retire: bool)
    ensures Reassign(t, u, row, retire).provisioned == t.provisioned
  {
  }

  // What a provider sign-in is answered.

  predicate Managed(row: User, bySaml: bool) {
    row.management == if bySaml then BySaml else ByOidc
  }

  /** The identity that a sign-in is with, if it is linked. */
  function Linkage(t: Tables, r: Request): Option<Id>
    requires r.ByProvider?
  {
    if r.bySaml then
      if t.saml.Some? && (t.saml.value.entity, r.subject) in t.samlIds then
        Some(t.samlIds[(t.saml.value.entity, r.subject)].user)
      else None
    else if t.oidc.Some? && (t.oidc.value.issuer, r.subject) in t.oidcIds then
      Some(t.oidcIds[(t.oidc.value.issuer, r.subject)].user)
    else None
  }

  predicate Enabled(t: Tables, bySaml: bool) {
    if bySaml then t.saml.Some? && t.saml.value.enabled else t.oidc.Some? && t.oidc.value.enabled
  }

  function PolicyRole(fold: Folding, t: Tables, r: Request): Option<Role>
    requires r.ByProvider? && Enabled(t, r.bySaml)
  {
    Mapped(fold, if r.bySaml then t.saml.value.policy else t.oidc.value.policy, r.email, r.groups)
  }

  /** What each way to sign in comes to: a new account if the installation is set
      up, nobody has the email and the policy maps a role; a linked account if it
      is active and its provider, where it manages the account, maps a role, and
      with SAML, where it does not, if it is authorized; a link for a live session
      of an identity linked to nobody; a confirmation for a live session of the
      identity's own account whose standing the sign-in leaves as it is. */
  predicate Admits(fold: Folding, t: Tables, r: Request)
    requires r.ByProvider?
  {
    && Enabled(t, r.bySaml)
    && match r.how
       case Login =>
         if Linkage(t, r).None? then t.complete && Free(t.users, r.email) && PolicyRole(fold, t, r).Some?
         else
           && Linkage(t, r).value in t.users
           && var row := t.users[Linkage(t, r).value];
           row.active && if Managed(row, r.bySaml) then PolicyRole(fold, t, r).Some? else !r.bySaml || row.authorized
       case LinkBy(s) =>
         && Live(t, s) && Linkage(t, r).None?
         && (r.bySaml && Managed(t.users[t.sessions[s].user], true) ==> PolicyRole(fold, t, r).Some?)
       case ReauthenticateBy(s) =>
         && Live(t, s) && Linkage(t, r) == Some(t.sessions[s].user)
         && var row := t.users[t.sessions[s].user];
         (Managed(row, r.bySaml) ==> PolicyRole(fold, t, r) == Some(row.role))
  }

  predicate AnsweredAs(fold: Folding, t: Tables, r: Request, y: Reply)
    requires r.ByProvider?
  {
    if Admits(fold, t, r) then (if r.how.ReauthenticateBy? then y.Granted? else y.SignedIn?)
    else y.Refused? || y.Denied?
  }

  lemma OidcKnownAnswers(fold: Folding, t: Tables, r: Request)
    requires r.ByProvider? && !r.bySaml && Enabled(t, false) && Linkage(t, r).Some? && Linkage(t, r).value in t.users
    requires !r.how.Login? ==> Live(t, r.how.session)
    requires r.how.ReauthenticateBy? ==> Linkage(t, r).value == t.sessions[r.how.session].user
    ensures AnsweredAs(fold, t, r, OidcKnown(fold, t, OidcKey(t, r), OidcEvidence(t, r), r.how).1)
  {
    hide Mapped, Apply, Mint;
  }

  lemma OidcAnswersExactly(fold: Folding, t: Tables, r: Request)
    requires Linked(t) && r.ByProvider? && !r.bySaml
    ensures AnsweredAs(fold, t, r, Step(fold, t, r).1)
  {
    hide OidcKnown, Mapped, Mint, Rotate;
    if Enabled(t, false) && (r.how.Login? || Live(t, r.how.session)) && Linkage(t, r).Some? {
      if r.how.ReauthenticateBy? ==> Linkage(t, r).value == t.sessions[r.how.session].user {
        OidcKnownAnswers(fold, t, r);
      }
    }
  }

  lemma SamlFollowedAnswers(fold: Folding, t: Tables, u: Id, facts: SamlFacts, how: How)
    requires t.saml.Some? && u in t.users
    ensures var y := SamlFollowed(fold, t, u, facts, how).1; var row := t.users[u];
            var mapped := Mapped(fold, t.saml.value.policy, facts.email, facts.groups);
            var good := row.active && if row.management == BySaml then mapped.Some? else row.authorized;
            if how.ReauthenticateBy? then
              && (y.Granted? || y.Denied? || y.Refused?)
              && (y.Granted? <==> good && row.authorized && (row.management == BySaml ==> mapped == Some(row.role)))
            else (y.SignedIn? || y.Denied? || y.Refused?) && (y.SignedIn? <==> good)
  {
    hide Mapped, Mint, Rotate, SessionsOf, Retired;
  }

  lemma SamlKnownAnswers(fold: Folding, t: Tables, r: Request)
    requires r.ByProvider? && r.bySaml && Enabled(t, true) && Linkage(t, r).Some? && Linkage(t, r).value in t.users
    requires !r.how.Login? ==> Live(t, r.how.session)
    requires r.how.ReauthenticateBy? ==> Linkage(t, r).value == t.sessions[r.how.session].user
    ensures AnsweredAs(fold, t, r, SamlKnown(fold, t, SamlKey(t, r), SamlEvidence(t, r), r.how).1)
  {
    hide SamlFollowed, Mapped;
    var u, facts := Linkage(t, r).value, SamlEvidence(t, r);
    SamlFollowedAnswers(fold, t.(samlIds := t.samlIds[SamlKey(t, r) := SamlIdentity(u, Some(facts))]), u, facts, r.how);
  }

  lemma SamlLinkAnswers(fold: Folding, t: Tables, r: Request)
    requires r.ByProvider? && r.bySaml && Enabled(t, true) && Linkage(t, r).None?
    requires r.how.LinkBy? && Live(t, r.how.session)
    ensures AnsweredAs(fold, t, r, SamlUnknown(fold, t, SamlKey(t, r), SamlEvidence(t, r), r.how).1)
  {
    hide SamlFollowed, Mapped, Taken, Free, Insert;
    var key, facts, u := SamlKey(t, r), SamlEvidence(t, r), t.sessions[r.how.session].user;
    SamlFollowedAnswers(fold, t.(samlIds := t.samlIds[key := SamlIdentity(u, Some(facts))]), u, facts, r.how);
  }

  lemma NewcomerSignsIn(fold: Folding, t: Tables, key: (string, string), role: Role, facts: SamlFacts)
    requires t.saml.Some? && Mapped(fold, t.saml.value.policy, facts.email, facts.groups) == Some(role)
    ensures var t0 := Insert(t, NewUser(facts.email, role, true, BySaml, false, 0));
            var t1 := t0.(samlIds := t.samlIds[key := SamlIdentity(t.next, Some(facts))]);
            Committed(t, SamlFollowed(fold, t1, t.next, facts, Login)).1.SignedIn?
  {
    hide SamlFollowed, Mapped, Mint;
    var t0 := Insert(t, NewUser(facts.email, role, true, BySaml, false, 0));
    NewcomerFollows(fold, t0.(samlIds := t.samlIds[key := SamlIdentity(t.next, Some(facts))]), t.next, facts);
  }

  lemma SamlNewcomerAnswers(fold: Folding, t: Tables, r: Request)
    requires r.ByProvider? && r.bySaml && Enabled(t, true) && Linkage(t, r).None? && r.how.Login?
    ensures AnsweredAs(fold, t, r, SamlUnknown(fold, t, SamlKey(t, r), SamlEvidence(t, r), r.how).1)
  {
    hide SamlFollowed, Mapped, Taken, Free, Live, Committed, Insert;
    NotTakenIsFree(t.users, r.email);
    if PolicyRole(fold, t, r).Some? {
      NewcomerSignsIn(fold, t, SamlKey(t, r), PolicyRole(fold, t, r).value, SamlEvidence(t, r));
    }
  }

  lemma SamlUnknownAnswers(fold: Folding, t: Tables, r: Request)
    requires r.ByProvider? && r.bySaml && Enabled(t, true) && Linkage(t, r).None?
    requires !r.how.Login? ==> Live(t, r.how.session)
    ensures AnsweredAs(fold, t, r, SamlUnknown(fold, t, SamlKey(t, r), SamlEvidence(t, r), r.how).1)
  {
    if r.how.LinkBy? {
      hide SamlUnknown, AnsweredAs;
      SamlLinkAnswers(fold, t, r);
    } else if r.how.Login? {
      hide SamlUnknown, AnsweredAs;
      SamlNewcomerAnswers(fold, t, r);
    } else {
      hide SamlFollowed, Mapped, Taken, Free, Insert;
    }
  }

  lemma SamlAnswersExactly(fold: Folding, t: Tables, r: Request)
    requires Linked(t) && r.ByProvider? && r.bySaml
    ensures AnsweredAs(fold, t, r, Step(fold, t, r).1)
  {
    hide SamlKnown, SamlUnknown, Mapped;
    if Enabled(t, true) && (r.how.Login? || Live(t, r.how.session)) {
      if Linkage(t, r).None? {
        SamlUnknownAnswers(fold, t, r);
      } else if r.how.ReauthenticateBy? ==> Linkage(t, r).value == t.sessions[r.how.session].user {
        SamlKnownAnswers(fold, t, r);
      }
    }
  }

  /** A provider sign-in is answered with a session, a link or a confirmation
      exactly when it is admitted, and otherwise refused or denied. */
  lemma ProviderAnswersExactly(fold: Folding, t: Tables, r: Request)
    requires Inv(t) && r.ByProvider?
    ensures var y := Step(fold, t, r).1;
            if Admits(fold, t, r) then (if r.how.ReauthenticateBy? then y.Granted? else y.SignedIn?)
            else y.Refused? || y.Denied?
  {
    hide Step, Admits, Numbered, Vouched, OnePerEmail, Current, Linked;
    if r.bySaml { SamlAnswersExactly(fold, t, r); } else { OidcAnswersExactly(fold, t, r); }
  }
}
