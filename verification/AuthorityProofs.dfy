/** What every reachable state of the authority tables satisfies. */
module AuthorityProofs {
  import opened Common
  import opened Kernel
  import opened RoleMapping
  import opened Authority

  // Pending invitations and live sessions agree with the users behind them.

  predicate Numbered(t: Tables) {
    && (forall u :: u in t.users ==> u < t.next)
    && (forall s :: s in t.sessions ==> s < t.next)
    && (forall i :: i in t.invitations ==> i < t.next)
  }

  /** Every pending unexpired invitation was issued by someone who is now an
      active, authorized, global owner. */
  predicate Vouched(users: map<Id, User>, invitations: map<Id, Invitation>, now: Time) {
    forall i :: i in invitations && Pending(invitations[i], now) ==>
        invitations[i].issuer in users && IsOwner(users[invitations[i].issuer])
  }

  predicate OnePerEmail(invitations: map<Id, Invitation>) {
    forall i, j | i in invitations && j in invitations && Open(invitations[i]) && Open(invitations[j]) ::
      invitations[i].email == invitations[j].email ==> i == j
  }

  /** Every session was minted under its user's present standing. */
  predicate Current(users: map<Id, User>, sessions: map<Id, Session>) {
    forall s :: s in sessions ==> sessions[s].user in users && sessions[s].minted == StandingOf(users[sessions[s].user])
  }

  predicate Linked(t: Tables) {
    && (forall k :: k in t.oidcIds ==> t.oidcIds[k].user in t.users)
    && (forall k :: k in t.samlIds ==> t.samlIds[k].user in t.users)
    && (forall k :: k in t.provisioned ==> t.provisioned[k] in t.users)
  }

  predicate Inv(t: Tables) {
    Numbered(t) && Vouched(t.users, t.invitations, t.now) && OnePerEmail(t.invitations)
      && Current(t.users, t.sessions) && Linked(t)
  }

  lemma MintKeepsInv(t: Tables, u: Id, signIn: Kernel.SignIn, mfa: bool)
    requires Inv(t) && u in t.users
    ensures Inv(Mint(t, u, signIn, mfa))
  {
    hide Vouched, OnePerEmail, Surplus;
  }

  lemma InsertKeepsInv(t: Tables, row: User)
    requires Inv(t)
    ensures Inv(Insert(t, row))
  {
    hide OnePerEmail;
  }

  lemma RetiringKeepsOnePerEmail(t: Tables, u: Id)
    requires OnePerEmail(t.invitations)
    ensures OnePerEmail(Retired(t.invitations, u, t.now))
  {
  }

  lemma ReassignKeepsVouched(t: Tables, u: Id, row: User, retire: bool)
    requires u in t.users && Vouched(t.users, t.invitations, t.now)
             && (retire || (IsOwner(t.users[u]) ==> IsOwner(row)))
    ensures var t' := Reassign(t, u, row, retire); Vouched(t'.users, t'.invitations, t'.now)
  {
  }

  lemma ReassignKeepsInv(t: Tables, u: Id, row: User, retire: bool)
    requires Inv(t) && u in t.users && (retire || (IsOwner(t.users[u]) ==> IsOwner(row)))
    ensures Inv(Reassign(t, u, row, retire))
  {
    hide Vouched, OnePerEmail, IsOwner, Pending;
    ReassignKeepsVouched(t, u, row, retire);
    RetiringKeepsOnePerEmail(t, u);
  }

  lemma RotateKeepsInv(t: Tables, u: Id, row: User, signIn: Kernel.SignIn, mfa: bool)
    requires Inv(t) && u in t.users && StandingOf(row) == StandingOf(t.users[u])
    ensures Inv(Rotate(t, u, row, signIn, mfa))
  {
    hide Vouched, OnePerEmail, Mint;
    ReassignKeepsVouched(t, u, row, false);
    var users, sessions := t.users[u := row.(etag := t.next)], t.sessions - SessionsOf(t.sessions, u);
    MintKeepsInv(t.(next := t.next + 1, users := users, sessions := sessions), u, signIn, mfa);
  }

  // The handlers.

  lemma InviteKeepsInv(t: Tables, issuer: Id, email: string, role: Role, hours: nat)
    requires Inv(t)
    ensures Inv(Invite(t, issuer, email, role, hours).0)
  {
    hide Current, Taken;
  }

  lemma AcceptingKeepsInv(t: Tables, i: Id)
    requires Inv(t) && i in t.invitations
    ensures Inv(t.(invitations := t.invitations[i := t.invitations[i].(accepted := true)]))
  {
    hide Current;
  }

  lemma AcceptKeepsInv(t: Tables, i: Id, mint: bool)
    requires Inv(t)
    ensures Inv(AcceptInvitation(t, i, mint).0)
  {
    hide Inv, Taken, Mint;
    if AcceptInvitation(t, i, mint).1 != Refused {
      var inv := t.invitations[i];
      var t0 := t.(invitations := t.invitations[i := inv.(accepted := true)]);
      AcceptingKeepsInv(t, i);
      InsertKeepsInv(t0, NewUser(inv.email, inv.role, true, ByHand, true, 0));
      MintKeepsInv(Insert(t0, NewUser(inv.email, inv.role, true, ByHand, true, 0)), t.next, Local, false);
    }
  }

  lemma SetupKeepsInv(t: Tables, email: string)
    requires Inv(t)
    ensures Inv(Setup(t, email).0)
  {
    hide Vouched, OnePerEmail, Current, Taken, Mint;
    InsertKeepsInv(t, NewUser(email, Owner, true, ByHand, true, 0));
    var t1 := Insert(t, NewUser(email, Owner, true, ByHand, true, 0)).(complete := true, localLogin := true);
    assert Inv(t1);
    MintKeepsInv(t1, t.next, Local, false);
  }

  lemma UpdateKeepsInv(fold: Folding, t: Tables, actor: Id, u: Id, ifMatch: Id, c: Change)
    requires Inv(t)
    ensures Inv(UpdateUser(fold, t, actor, u, ifMatch, c).0)
  {
    hide Inv, UsableOwner, Reassign;
    if u in t.users {
      var row := Changed(t.users[u], c);
      ReassignKeepsInv(t, u, row, !row.active || row.role != Owner || row.scope != Global);
    }
  }

  lemma ProvisionKeepsInv(fold: Folding, t: Tables, key: (string, string), email: string, role: Role, active: bool)
    requires Inv(t)
    ensures Inv(ProvisionUser(fold, t, key, email, role, active).0)
  {
    hide Numbered, Vouched, OnePerEmail, Current, UsableOwner, Reassign, Taken;
    if key in t.provisioned && t.provisioned[key] in t.users {
      var u := t.provisioned[key];
      ReassignKeepsInv(t, u, t.users[u].(email := email, role := role, active := active), !active || role != Owner);
    } else {
      InsertKeepsInv(t, NewUser(email, role, active, ByProvisioning, false, 0));
      ProvisionedKeepsNumbered(Insert(t, NewUser(email, role, active, ByProvisioning, false, 0)),
        t.provisioned[key := t.next]);
    }
  }

  lemma ProvisionedKeepsNumbered(t: Tables, provisioned: map<(string, string), Id>)
    requires Numbered(t)
    ensures Numbered(t.(provisioned := provisioned))
  {
  }

  lemma DeprovisionKeepsInv(fold: Folding, t: Tables, key: (string, string))
    requires Inv(t)
    ensures Inv(DeprovisionUser(fold, t, key).0)
  {
    hide Inv, UsableOwner, Reassign;
    if key in t.provisioned && t.provisioned[key] in t.users {
      var u := t.provisioned[key];
      ReassignKeepsInv(t, u, t.users[u].(active := false), true);
    }
  }

  /** Sessions may go, and configuration and evidence may change. */
  lemma ConfiguringKeepsInv(t: Tables, t': Tables)
    requires Inv(t) && Linked(t') && t'.next == t.next && t'.now == t.now
    requires t'.users == t.users && t'.invitations == t.invitations
    requires forall s :: s in t'.sessions ==> s in t.sessions && t'.sessions[s] == t.sessions[s]
    ensures Inv(t')
  {
    hide Vouched, OnePerEmail, Linked;
  }

  lemma NewEvidenceKeepsInv(t: Tables, ids: map<(string, string), OidcIdentity>, c: OidcConfig, secret: Option<nat>)
    requires Inv(t) && forall k :: k in ids ==> k in t.oidcIds && ids[k].user == t.oidcIds[k].user
    ensures Inv(t.(oidc := Some(c), secret := secret, oidcIds := ids))
  {
    hide Vouched, OnePerEmail, Current;
  }

  lemma CleanClaims(ids: map<(string, string), OidcIdentity>)
    ensures forall k :: k in WithoutClaims(ids) ==> k in ids && WithoutClaims(ids)[k].user == ids[k].user
  {
  }

  lemma PutOidcKeepsInv(fold: Folding, t: Tables, c: OidcConfig, input: ClientSecret)
    requires Inv(t)
    ensures Inv(PutOidc(fold, t, c, input).0)
  {
    hide Inv, UsableOwner, Validated, WithoutClaims;
    var secret := NewSecret(t.secret, input);
    CleanClaims(t.oidcIds);
    NewEvidenceKeepsInv(t, WithoutClaims(t.oidcIds), c.(hasSecret := secret.Some?), secret);
    NewEvidenceKeepsInv(t, t.oidcIds, c.(hasSecret := secret.Some?), secret);
  }

  lemma PutSamlKeepsInv(fold: Folding, t: Tables, c: SamlConfig)
    requires Inv(t)
    ensures Inv(PutSaml(fold, t, c).0)
  {
    hide Numbered, Vouched, OnePerEmail, Current, UsableOwner, Validated, InDate;
    ConfiguringKeepsInv(t, PutSaml(fold, t, c).0);
  }

  lemma SetLocalLoginKeepsInv(fold: Folding, t: Tables, enabled: bool)
    requires Inv(t)
    ensures Inv(SetLocalLogin(fold, t, enabled).0)
  {
    hide Vouched, OnePerEmail, Current, UsableOwner;
  }

  lemma UnlinkKeepsInv(fold: Folding, t: Tables, r: Request)
    requires Inv(t) && (r.DropOidc? || r.DropSaml?)
    ensures Inv(Step(fold, t, r).0)
  {
    hide Vouched, OnePerEmail, Current, UsableOwner, OidcPath, SamlPath, SamlLinked, LocalPath, Rotate;
    if Live(t, r.session) {
      var u, s := t.sessions[r.session].user, t.sessions[r.session];
      var t1 := if r.DropOidc? then t.(oidcIds := t.oidcIds - {r.key}) else t.(samlIds := t.samlIds - {r.key});
      assert Inv(t1);
      RotateKeepsInv(t1, u, t.users[u], s.signIn, s.mfa);
    }
  }

  lemma ApplyKeepsInv(t: Tables, u: Id, mapped: Option<Role>, source: Management)
    requires Inv(t) && u in t.users
    ensures Inv(Apply(t, u, Synced(t.users[u], mapped, source)))
  {
    hide Inv, Reassign;
    var sync := Synced(t.users[u], mapped, source);
    if sync.changed {
      ReassignKeepsInv(t, u, t.users[u].(role := sync.role, authorized := sync.authorized), !sync.allowed
        || sync.role != Owner);
    }
  }

  lemma OidcKnownKeepsInv(fold: Folding, t: Tables, key: (string, string), claims: OidcClaims, how: How)
    requires Inv(t) && t.oidc.Some? && key in t.oidcIds && t.oidcIds[key].user in t.users
    ensures Inv(OidcKnown(fold, t, key, claims, how).0)
  {
    hide Vouched, OnePerEmail, Current, Mapped, Synced, Mint;
    var u := t.oidcIds[key].user;
    var t0 := t.(oidcIds := t.oidcIds[key := OidcIdentity(u, Some(claims))]);
    var mapped := Mapped(fold, t.oidc.value.policy, claims.email, claims.groups);
    assert Inv(t0);
    ApplyKeepsInv(t0, u, mapped, ByOidc);
    MintKeepsInv(Apply(t0, u, Synced(t.users[u], mapped, ByOidc)), u, SignIn.Oidc, false);
  }

  lemma OidcUnknownKeepsInv(fold: Folding, t: Tables, key: (string, string), claims: OidcClaims, how: How)
    requires Inv(t) && t.oidc.Some?
    ensures Inv(OidcUnknown(fold, t, key, claims, how).0)
  {
    hide Vouched, OnePerEmail, Current, Mapped, Mint, Rotate, Taken;
    match how
    case ReauthenticateBy(_) =>
    case LinkBy(s) =>
      if Live(t, s) {
        var u := t.sessions[s].user;
        var t1 := t.(oidcIds := t.oidcIds[key := OidcIdentity(u, Some(claims))]);
        assert Inv(t1);
        RotateKeepsInv(t1, u, t.users[u], SignIn.Oidc, false);
      }
    case Login =>
      var role := Mapped(fold, t.oidc.value.policy, claims.email, claims.groups);
      if role.Some? {
        var row := NewUser(claims.email, role.value, true, ByOidc, false, 0);
        InsertKeepsInv(t, row);
        var t1 := Insert(t, row).(oidcIds := t.oidcIds[key := OidcIdentity(t.next, Some(claims))]);
        assert Inv(t1);
        MintKeepsInv(t1, t.next, SignIn.Oidc, false);
      }
  }

  lemma OidcKeepsInv(fold: Folding, t: Tables, subject: string, email: string, groups: seq<string>, how: How)
    requires Inv(t)
    ensures Inv(OidcSignIn(fold, t, subject, email, groups, how).0)
  {
    hide Inv, OidcKnown, OidcUnknown;
    if t.oidc.Some? {
      var c := t.oidc.value;
      var key := (c.issuer, subject);
      var claims := OidcClaims(c.client, c.scopes, c.emailClaim, c.groupsClaim, email, groups);
      if key in t.oidcIds && t.oidcIds[key].user in t.users {
        OidcKnownKeepsInv(fold, t, key, claims, how);
      } else {
        OidcUnknownKeepsInv(fold, t, key, claims, how);
      }
    }
  }

  lemma SamlFollowedKeepsInv(fold: Folding, t: Tables, u: Id, facts: SamlFacts, how: How)
    requires Inv(t) && t.saml.Some? && u in t.users
    ensures Inv(SamlFollowed(fold, t, u, facts, how).0)
  {
    hide Inv, Mapped, Synced, Mint, Rotate;
    var mapped := Mapped(fold, t.saml.value.policy, facts.email, facts.groups);
    var t1 := Apply(t, u, Synced(t.users[u], mapped, BySaml));
    ApplyKeepsInv(t, u, mapped, BySaml);
    RotateKeepsInv(t1, u, t1.users[u], SignIn.Saml, false);
    MintKeepsInv(t1, u, SignIn.Saml, false);
  }

  lemma LinkingKeepsInv(t: Tables, key: (string, string), id: SamlIdentity)
    requires Inv(t) && id.user in t.users
    ensures Inv(t.(samlIds := t.samlIds[key := id]))
  {
    hide Vouched, OnePerEmail, Current;
  }

  lemma SamlKnownKeepsInv(fold: Folding, t: Tables, key: (string, string), facts: SamlFacts, how: How)
    requires Inv(t) && t.saml.Some? && key in t.samlIds && t.samlIds[key].user in t.users
    ensures Inv(SamlKnown(fold, t, key, facts, how).0)
  {
    hide Inv, SamlFollowed;
    var u := t.samlIds[key].user;
    LinkingKeepsInv(t, key, SamlIdentity(u, Some(facts)));
    SamlFollowedKeepsInv(fold, t.(samlIds := t.samlIds[key := SamlIdentity(u, Some(facts))]), u, facts, how);
  }

  lemma SamlUnknownKeepsInv(fold: Folding, t: Tables, key: (string, string), facts: SamlFacts, how: How)
    requires Inv(t) && t.saml.Some?
    ensures Inv(SamlUnknown(fold, t, key, facts, how).0)
  {
    hide Inv, SamlFollowed, Mapped, Taken;
    match how
    case ReauthenticateBy(_) =>
    case LinkBy(s) =>
      if Live(t, s) {
        var u := t.sessions[s].user;
        LinkingKeepsInv(t, key, SamlIdentity(u, Some(facts)));
        SamlFollowedKeepsInv(fold, t.(samlIds := t.samlIds[key := SamlIdentity(u, Some(facts))]), u, facts, how);
      }
    case Login =>
      var role := Mapped(fold, t.saml.value.policy, facts.email, facts.groups);
      if role.Some? {
        var row := NewUser(facts.email, role.value, true, BySaml, false, 0);
        InsertKeepsInv(t, row);
        LinkingKeepsInv(Insert(t, row), key, SamlIdentity(t.next, Some(facts)));
        SamlFollowedKeepsInv(fold, Insert(t, row).(samlIds := t.samlIds[key := SamlIdentity(t.next, Some(facts))]),
          t.next, facts, how);
      }
  }

  lemma SamlKeepsInv(fold: Folding, t: Tables, subject: string, email: string, groups: seq<string>, how: How)
    requires Inv(t)
    ensures Inv(SamlSignIn(fold, t, subject, email, groups, how).0)
  {
    hide Inv, SamlKnown, SamlUnknown;
    if t.saml.Some? {
      var c := t.saml.value;
      var key := (c.entity, subject);
      var facts := SamlFacts(c.emailAttribute, c.groupsAttribute, email, groups);
      if key in t.samlIds && t.samlIds[key].user in t.users {
        SamlKnownKeepsInv(fold, t, key, facts, how);
      } else {
        SamlUnknownKeepsInv(fold, t, key, facts, how);
      }
    }
  }

  lemma PasswordsKeepInv(t: Tables, fold: Folding, r: Request)
    requires Inv(t) && (r.Password? || r.Recover? || r.LogIn?)
    ensures Inv(Step(fold, t, r).0)
  {
    hide Inv, Mint, Rotate, Reassign;
    match r
    case Password(s) =>
      if Live(t, s) {
        RotateKeepsInv(t, t.sessions[s].user, t.users[t.sessions[s].user].(password := true), t.sessions[s].signIn,
          t.sessions[s].mfa);
      }
    case Recover(u) => if u in t.users { ReassignKeepsInv(t, u, t.users[u].(password := true), false); }
    case LogIn(u, mint) => if u in t.users { MintKeepsInv(t, u, Local, false); }
  }

  lemma RetireKeepsInv(t: Tables, i: Id)
    requires Inv(t)
    ensures Inv(RetireInvitation(t, i).0)
  {
    hide Current;
  }

  lemma WaitingKeepsInv(t: Tables, until: Time)
    requires Inv(t) && until >= t.now
    ensures Inv(t.(now := until))
  {
    hide OnePerEmail, Current;
  }

  /** Fewer sessions, or a later time. */
  lemma PlainStepsKeepInv(fold: Folding, t: Tables, r: Request)
    requires Inv(t) && (r.LogOut? || r.Sweep? || r.Wait?)
    ensures Inv(Step(fold, t, r).0)
  {
    hide Inv, Linked;
    if r.Wait? {
      WaitingKeepsInv(t, if r.until > t.now then r.until else t.now);
    } else {
      assert Linked(t) by { InvLinks(t); }
      SessionsApart(t, Step(fold, t, r).0.sessions);
      ConfiguringKeepsInv(t, Step(fold, t, r).0);
    }
  }

  lemma InvLinks(t: Tables)
    requires Inv(t)
    ensures Linked(t)
  {
  }

  lemma SessionsApart(t: Tables, sessions: map<Id, Session>)
    requires Linked(t)
    ensures Linked(t.(sessions := sessions))
  {
  }

  lemma StepKeepsInv(fold: Folding, t: Tables, r: Request)
    requires Inv(t)
    ensures Inv(Step(fold, t, r).0)
  {
    hide Inv, Setup, UpdateUser, ProvisionUser, DeprovisionUser, Invite, AcceptInvitation, OidcSignIn, SamlSignIn;
    hide PutOidc, PutSaml, SetLocalLogin, UnlinkOidc, UnlinkSaml, SetPassword, RecoverPassword, SignInLocally,
      RetireInvitation;
    match r
    case SetUp(email) => SetupKeepsInv(t, email);
    case Update(actor, u, ifMatch, c) => UpdateKeepsInv(fold, t, actor, u, ifMatch, c);
    case Provision(key, email, role, active) => ProvisionKeepsInv(fold, t, key, email, role, active);
    case Deprovision(key) => DeprovisionKeepsInv(fold, t, key);
    case Create(issuer, email, role, hours) => InviteKeepsInv(t, issuer, email, role, hours);
    case Accept(i, mint) => AcceptKeepsInv(t, i, mint);
    case ConfigureOidc(c, secret) => PutOidcKeepsInv(fold, t, c, secret);
    case ConfigureSaml(c) => PutSamlKeepsInv(fold, t, c);
    case Allow(enabled) => SetLocalLoginKeepsInv(fold, t, enabled);
    case DropOidc(_, _) => UnlinkKeepsInv(fold, t, r);
    case DropSaml(_, _) => UnlinkKeepsInv(fold, t, r);
    case Password(_) => PasswordsKeepInv(t, fold, r);
    case Recover(_) => PasswordsKeepInv(t, fold, r);
    case LogIn(_, _) => PasswordsKeepInv(t, fold, r);
    case ByProvider(bySaml, subject, email, groups, how) =>
      SamlKeepsInv(fold, t, subject, email, groups, how);
      OidcKeepsInv(fold, t, subject, email, groups, how);
    case Retire(i) => RetireKeepsInv(t, i);
    case _ => PlainStepsKeepInv(fold, t, r);
  }

  lemma EmptyHasInv(t: Tables)
    requires Empty(t)
    ensures Inv(t)
  {
  }

  lemma {:induction false} RunKeepsInv(fold: Folding, t: Tables, run: seq<Request>)
    requires Inv(t)
    ensures Inv(After(fold, t, run))
    decreases |run|
  {
    hide Inv, Step;
    if run != [] {
      StepKeepsInv(fold, t, run[0]);
      RunKeepsInv(fold, Step(fold, t, run[0]).0, run[1..]);
    }
  }

  /** In every reachable state each pending unexpired invitation was issued by a
      user who is now active, externally authorized, owner and global, at most
      one open invitation exists per email, and every session was minted under
      its user's present role, active flag, scope and authorization. */
  lemma EveryRunKeepsAuthority(fold: Folding, t: Tables, run: seq<Request>)
    requires Empty(t)
    ensures var t' := After(fold, t, run);
            && (forall i :: i in t'.invitations && Pending(t'.invitations[i], t'.now) ==>
                  t'.invitations[i].issuer in t'.users && IsOwner(t'.users[t'.invitations[i].issuer]))
            && (forall i, j | i in t'.invitations && j in t'.invitations && Open(t'.invitations[i])
               && Open(t'.invitations[j]) ::
                  t'.invitations[i].email == t'.invitations[j].email ==> i == j)
            && (forall s :: s in t'.sessions ==>
                  t'.sessions[s].user in t'.users && t'.sessions[s].minted == StandingOf(t'.users[t'.sessions[s].user]))
  {
    hide Step;
    EmptyHasInv(t);
    RunKeepsInv(fold, t, run);
  }
}
