/** Why a user has the standing they have: every change of a user's row and every
    new user goes back to a request that asks for exactly that, emails stay
    distinct, and an installation is set up once. */
module Standings {
  import opened Common
  import opened Kernel
  import opened RoleMapping
  import opened Authority
  import opened AuthorityProofs
  import opened UsableOwners
  import opened Grants

  // The users each statement writes.

  lemma ReassignUsers(t: Tables, u: Id, row: User, retire: bool)
    ensures Reassign(t, u, row, retire).users == t.users[u := row.(etag := t.next)]
  {
  }

  lemma MintUsers(t: Tables, u: Id, signIn: Kernel.SignIn, mfa: bool)
    requires u in t.users
    ensures Mint(t, u, signIn, mfa).users == t.users
  {
  }

  lemma RotateUsers(t: Tables, u: Id, row: User, signIn: Kernel.SignIn, mfa: bool)
    ensures Rotate(t, u, row, signIn, mfa).users == t.users[u := row.(etag := t.next)]
  {
  }

  lemma InsertUsers(t: Tables, row: User)
    ensures Insert(t, row).users == t.users[t.next := row.(etag := t.next + 1, mfaRevision := t.next + 1)]
  {
  }

  // The reasons.

  /** What a request may make of an existing user's row. */
  predicate Explained(fold: Folding, t: Tables, r: Request, u: Id, row: User, row': User) {
    match r
    case Update(actor, v, ifMatch, c) =>
      && u == v && ifMatch == row.etag
      && row'.role == (if c.role.Some? then c.role.value else row.role)
      && row'.active == (if c.active.Some? then c.active.value else row.active)
      && row'.scope == (if c.scope.Some? then c.scope.value else row.scope)
      && row'.management == (if row.management == ByProvisioning then ByHand else row.management)
      && row'.email == row.email && row'.authorized == row.authorized && row'.password == row.password
      && (u == actor ==> row'.active && row'.role == row.role && row'.scope == row.scope)
    case Provision(key, email, role, active) =>
      && key in t.provisioned && t.provisioned[key] == u && row.management == ByProvisioning
         && Free(t.users - {u}, email)
      && row' == row.(email := email, role := role, active := active, etag := row'.etag)
    case Deprovision(key) =>
      && key in t.provisioned && t.provisioned[key] == u && row.management == ByProvisioning
      && row' == row.(active := false, etag := row'.etag)
    case Password(s) =>
      Live(t, s) && t.sessions[s].user == u && row' == row.(password := true, etag := row'.etag)
    case Recover(v) => u == v && row.active && row' == row.(password := true, etag := row'.etag)
    case DropOidc(s, _) => Live(t, s) && t.sessions[s].user == u && row' == row.(etag := row'.etag)
    case DropSaml(s, _) => Live(t, s) && t.sessions[s].user == u && row' == row.(etag := row'.etag)
    case ByProvider(bySaml, _, _, _, how) =>
      && (how.LinkBy? ==> Live(t, how.session) && t.sessions[how.session].user == u)
      && row' == row.(role := row'.role, authorized := row'.authorized, etag := row'.etag)
      && ((row'.role == row.role && row'.authorized == row.authorized)
          || (&& Followed(t, r) == Some(u) && row.management == Source(bySaml)
              && row'.authorized == RoleGiven(fold, t, r).Some?
              && row'.role == if RoleGiven(fold, t, r).Some? then RoleGiven(fold, t, r).value else row.role))
    case _ => false
  }

  /** What a request may make a new user of. */
  predicate Welcome(fold: Folding, t: Tables, r: Request, row: User) {
    && row.authorized && row.scope == Global && Free(t.users, row.email)
    && match r
       case SetUp(email) => !t.complete && row.email == email && row.role == Owner && row.active
         && row.management == ByHand
       case Accept(i, _) =>
         && Acceptable(t, i) && row.email == t.invitations[i].email && row.role == t.invitations[i].role
         && row.active && row.management == ByHand
       case Provision(key, email, role, active) =>
         && row.email == email && row.role == role && row.active == active && row.management == ByProvisioning
         && !row.password
       case ByProvider(bySaml, _, email, groups, how) =>
         && how == Login && t.complete && row.email == email && row.active && row.management == Source(bySaml)
         && !row.password
         && (if bySaml then t.saml.Some? && Mapped(fold, t.saml.value.policy, email, groups) == Some(row.role)
             else t.oidc.Some? && Mapped(fold, t.oidc.value.policy, email, groups) == Some(row.role))
       case _ => false
  }

  predicate RowJustified(fold: Folding, t: Tables, r: Request, u: Id, row: User) {
    if u in t.users then Explained(fold, t, r, u, t.users[u], row) else Welcome(fold, t, r, row)
  }

  /** The users are as before but for at most one, who has a reason. */
  ghost predicate Justified(fold: Folding, t: Tables, r: Request, users: map<Id, User>) {
    users == t.users || exists u, row :: users == t.users[u := row] && RowJustified(fold, t, r, u, row)
  }

  lemma SameIsJustified(fold: Folding, t: Tables, r: Request)
    ensures Justified(fold, t, r, t.users)
  {
  }

  lemma OneRowIsJustified(fold: Folding, t: Tables, r: Request, u: Id, row: User)
    requires if u in t.users then Explained(fold, t, r, u, t.users[u], row) else Welcome(fold, t, r, row)
    ensures Justified(fold, t, r, t.users[u := row])
  {
    hide Explained, Welcome;
    assert RowJustified(fold, t, r, u, row);
  }

  lemma FreeIsNotTaken(users: map<Id, User>, email: string)
    ensures Free(users, email) <==> !Taken(users, email)
  {
  }

  // Each handler.

  lemma UpdateJustified(fold: Folding, t: Tables, r: Request)
    requires r.Update?
    ensures Justified(fold, t, r, Step(fold, t, r).0.users)
  {
    hide Justified, UsableOwner, Reassign;
    SameIsJustified(fold, t, r);
    if UpdateUser(fold, t, r.actor, r.user, r.ifMatch, r.change).1.Done? {
      var row := Changed(t.users[r.user], r.change);
      ReassignUsers(t, r.user, row, !row.active || row.role != Owner || row.scope != Global);
      OneRowIsJustified(fold, t, r, r.user, row.(etag := t.next));
    }
  }

  lemma DeprovisionJustified(fold: Folding, t: Tables, r: Request)
    requires r.Deprovision?
    ensures Justified(fold, t, r, Step(fold, t, r).0.users)
  {
    hide Justified, UsableOwner, Reassign;
    SameIsJustified(fold, t, r);
    if r.key in t.provisioned && t.provisioned[r.key] in t.users
      && t.users[t.provisioned[r.key]].management == ByProvisioning {
      var u := t.provisioned[r.key];
      ReassignUsers(t, u, t.users[u].(active := false), true);
      OneRowIsJustified(fold, t, r, u, t.users[u].(active := false, etag := t.next));
    }
  }

  lemma ReprovisionJustified(fold: Folding, t: Tables, r: Request)
    requires r.Provision? && r.key in t.provisioned && t.provisioned[r.key] in t.users
    ensures Justified(fold, t, r, Step(fold, t, r).0.users)
  {
    hide Justified, UsableOwner, Reassign, Taken, Free;
    SameIsJustified(fold, t, r);
    var u := t.provisioned[r.key];
    FreeIsNotTaken(t.users - {u}, r.email);
    if t.users[u].management == ByProvisioning && !Taken(t.users - {u}, r.email) {
      var row := t.users[u].(email := r.email, role := r.role, active := r.active);
      ReassignUsers(t, u, row, !r.active || r.role != Owner);
      OneRowIsJustified(fold, t, r, u, row.(etag := t.next));
    }
  }

  lemma ProvisionJustified(fold: Folding, t: Tables, r: Request)
    requires Numbered(t) && r.Provision? && !(r.key in t.provisioned && t.provisioned[r.key] in t.users)
    ensures Justified(fold, t, r, Step(fold, t, r).0.users)
  {
    hide Justified, UsableOwner, Taken, Free, Welcome, Explained, Insert;
    SameIsJustified(fold, t, r);
    if !Taken(t.users, r.email) {
      var row := NewUser(r.email, r.role, r.active, ByProvisioning, false, 0);
      FreeIsNotTaken(t.users, r.email);
      InsertUsers(t, row);
      ProvisionedIsWelcome(fold, t, r, t.next + 1);
      OneRowIsJustified(fold, t, r, t.next, row.(etag := t.next + 1, mfaRevision := t.next + 1));
    }
  }

  lemma ProvisionedIsWelcome(fold: Folding, t: Tables, r: Request, tag: Id)
    requires r.Provision? && Free(t.users, r.email)
    ensures Welcome(fold, t, r,
            NewUser(r.email, r.role, r.active, ByProvisioning, false, 0).(etag := tag, mfaRevision := tag))
  {
    hide Free;
  }

  lemma EnteringJustified(fold: Folding, t: Tables, r: Request)
    requires Numbered(t) && (r.SetUp? || r.Accept? || r.LogIn?)
    ensures Justified(fold, t, r, Step(fold, t, r).0.users)
  {
    hide Justified, Mint, Taken, Free;
    SameIsJustified(fold, t, r);
    match r
    case SetUp(email) =>
      var row := NewUser(email, Owner, true, ByHand, true, 0);
      if !t.complete && !Taken(t.users, email) {
        FreeIsNotTaken(t.users, email);
        InsertUsers(t, row);
        OneRowIsJustified(fold, t, r, t.next, row.(etag := t.next + 1, mfaRevision := t.next + 1));
        MintUsers(Insert(t, row).(complete := true, localLogin := true), t.next, Local, false);
      }
    case Accept(i, mint) =>
      if !AcceptInvitation(t, i, mint).1.Refused? {
        var inv := t.invitations[i];
        var row := NewUser(inv.email, inv.role, true, ByHand, true, 0);
        FreeIsNotTaken(t.users, inv.email);
        InsertUsers(t, row);
        OneRowIsJustified(fold, t, r, t.next, row.(etag := t.next + 1, mfaRevision := t.next + 1));
        MintUsers(Insert(t, row).(invitations := t.invitations[i := inv.(accepted := true)]), t.next, Local, false);
      }
    case LogIn(u, _) => if u in t.users { MintUsers(t, u, Local, false); }
  }

  lemma OwnRequestsJustified(fold: Folding, t: Tables, r: Request)
    requires r.Password? || r.DropOidc? || r.DropSaml? || r.Recover?
    ensures Justified(fold, t, r, Step(fold, t, r).0.users)
  {
    hide Justified, Rotate, Reassign, UsableOwner, OidcPath, SamlPath, SamlLinked, LocalPath;
    SameIsJustified(fold, t, r);
    if r.Recover? {
      if r.user in t.users && t.users[r.user].active {
        var row := t.users[r.user].(password := true);
        ReassignUsers(t, r.user, row, false);
        OneRowIsJustified(fold, t, r, r.user, row.(etag := t.next));
      }
    } else if Live(t, r.session) {
      var u, s := t.sessions[r.session].user, t.sessions[r.session];
      var row := if r.Password? then t.users[u].(password := true) else t.users[u];
      var t1 := if r.DropOidc? then t.(oidcIds := t.oidcIds - {r.key})
                else if r.DropSaml? then t.(samlIds := t.samlIds - {r.key}) else t;
      RotateUsers(t1, u, row, s.signIn, s.mfa);
      OneRowIsJustified(fold, t, r, u, row.(etag := t.next));
    }
  }

  lemma PutOidcUsers(fold: Folding, t: Tables, c: OidcConfig, input: ClientSecret)
    ensures PutOidc(fold, t, c, input).0.users == t.users
  {
    hide UsableOwner, Validated, WithoutClaims, NewSecret;
  }

  lemma PutSamlUsers(fold: Folding, t: Tables, c: SamlConfig)
    ensures PutSaml(fold, t, c).0.users == t.users
  {
    hide UsableOwner, Validated, InDate, WithoutFacts;
  }

  lemma RestJustified(fold: Folding, t: Tables, r: Request)
    requires r.Create? || r.Retire? || r.ConfigureOidc? || r.ConfigureSaml? || r.Allow? || r.LogOut? || r.Sweep?
             || r.Wait?
    ensures Justified(fold, t, r, Step(fold, t, r).0.users)
  {
    hide Justified, UsableOwner, Taken, PutOidc, PutSaml;
    SameIsJustified(fold, t, r);
    if r.ConfigureOidc? {
      PutOidcUsers(fold, t, r.oidc, r.secret);
    } else if r.ConfigureSaml? {
      PutSamlUsers(fold, t, r.saml);
    }
  }

  // Sign-in through a provider.

  lemma FollowsOneRow(fold: Folding, t: Tables, t': Tables, r: Request, u: Id)
    requires r.ByProvider? && Followed(t, r) == Some(u) && Follows(fold, t, t', r, u)
    ensures u in t.users && u in t'.users && t'.users == t.users[u := t'.users[u]]
    ensures RowFollows(t.users[u], t'.users[u], RoleGiven(fold, t, r), Source(r.bySaml))
  {
    hide Followed, RoleGiven, RowFollows, Mapped;
  }

  lemma FollowedJustified(fold: Folding, t: Tables, r: Request)
    requires r.ByProvider? && Followed(t, r).Some?
    ensures Justified(fold, t, r, Step(fold, t, r).0.users)
  {
    hide Step, Mapped, Justified, Followed, Follows, RowFollows, RoleGiven, Explained;
    var u, t' := Followed(t, r).value, Step(fold, t, r).0;
    if r.bySaml { SamlSignInFollows(fold, t, r); } else { OidcSignInFollows(fold, t, r); }
    FollowsOneRow(fold, t, t', r, u);
    FollowedRowExplained(fold, t, r, u, t.users[u], t'.users[u]);
    OneRowIsJustified(fold, t, r, u, t'.users[u]);
  }

  lemma FollowedRowExplained(fold: Folding, t: Tables, r: Request, u: Id, row: User, row': User)
    requires r.ByProvider? && Followed(t, r) == Some(u)
             && RowFollows(row, row', RoleGiven(fold, t, r), Source(r.bySaml))
    ensures Explained(fold, t, r, u, row, row')
  {
    hide Mapped;
  }

  lemma OidcUnknownJustified(fold: Folding, t: Tables, r: Request)
    requires Numbered(t) && r.ByProvider? && !r.bySaml && t.oidc.Some? && t.oidc.value.enabled && Followed(t, r).None?
    requires OidcKey(t, r) !in t.oidcIds
    ensures Justified(fold, t, r, OidcUnknown(fold, t, OidcKey(t, r), OidcEvidence(t, r), r.how).0.users)
  {
    hide Justified, Mapped, Taken, Mint, Rotate, Free;
    SameIsJustified(fold, t, r);
    var key, claims := OidcKey(t, r), OidcEvidence(t, r);
    match r.how
    case ReauthenticateBy(_) =>
    case LinkBy(s) =>
      if Live(t, s) {
        var u := t.sessions[s].user;
        RotateUsers(t.(oidcIds := t.oidcIds[key := OidcIdentity(u, Some(claims))]), u, t.users[u], SignIn.Oidc, false);
        OneRowIsJustified(fold, t, r, u, t.users[u].(etag := t.next));
      }
    case Login =>
      var role := Mapped(fold, t.oidc.value.policy, claims.email, claims.groups);
      if role.Some? && !Taken(t.users, claims.email) && t.complete {
        var row := NewUser(claims.email, role.value, true, ByOidc, false, 0);
        var t1 := Insert(t, row).(oidcIds := t.oidcIds[key := OidcIdentity(t.next, Some(claims))]);
        FreeIsNotTaken(t.users, claims.email);
        InsertUsers(t, row);
        OneRowIsJustified(fold, t, r, t.next, row.(etag := t.next + 1, mfaRevision := t.next + 1));
        MintUsers(t1, t.next, SignIn.Oidc, false);
      }
  }

  lemma MappedIsWelcome(fold: Folding, t: Tables, r: Request, role: Role, tag: Id)
    requires r.ByProvider? && r.how == Login && t.complete && Free(t.users, r.email)
             && MappedBy(fold, t, r) == Some(role)
    ensures Welcome(fold, t, r,
            NewUser(r.email, role, true, Source(r.bySaml), false, 0).(etag := tag, mfaRevision := tag))
  {
    hide Free, Mapped;
  }

  lemma SamlUnknownJustified(fold: Folding, t: Tables, r: Request)
    requires Numbered(t) && r.ByProvider? && r.bySaml && t.saml.Some? && !r.how.LinkBy? && SamlKey(t, r) !in t.samlIds
    ensures Justified(fold, t, r, SamlUnknown(fold, t, SamlKey(t, r), SamlEvidence(t, r), r.how).0.users)
  {
    hide Justified, Mapped, SamlFollowed, Taken, Mint, Free, Welcome, Explained;
    SameIsJustified(fold, t, r);
    var key, facts := SamlKey(t, r), SamlEvidence(t, r);
    var role := Mapped(fold, t.saml.value.policy, facts.email, facts.groups);
    if r.how.Login? && role.Some? && !Taken(t.users, facts.email) && t.complete {
      var row := NewUser(facts.email, role.value, true, BySaml, false, 0);
      var t1 := Insert(t, row).(samlIds := t.samlIds[key := SamlIdentity(t.next, Some(facts))]);
      FreeIsNotTaken(t.users, facts.email);
      InsertUsers(t, row);
      MappedIsWelcome(fold, t, r, role.value, t.next + 1);
      OneRowIsJustified(fold, t, r, t.next, row.(etag := t.next + 1, mfaRevision := t.next + 1));
      NewcomerFollows(fold, t1, t.next, facts);
      MintUsers(t1, t.next, SignIn.Saml, false);
    }
  }

  lemma UnfollowedJustified(fold: Folding, t: Tables, r: Request)
    requires Numbered(t) && Linked(t) && r.ByProvider? && Followed(t, r).None?
    ensures Justified(fold, t, r, Step(fold, t, r).0.users)
  {
    hide Numbered, OidcUnknown, SamlUnknown, SamlFollowed, Apply, Synced, Mapped, Mint, Justified;
    SameIsJustified(fold, t, r);
    if r.bySaml {
      if t.saml.Some? && SamlKey(t, r) !in t.samlIds && !r.how.LinkBy? {
        SamlUnknownJustified(fold, t, r);
      }
    } else if t.oidc.Some? && t.oidc.value.enabled && OidcKey(t, r) !in t.oidcIds {
      OidcUnknownJustified(fold, t, r);
    }
  }

  /** No step takes a user away, and every user after a step is as before, or
      changed as the request asks by somebody it may be asked of, or new as the
      request asks: the owner of an installation that had none, the email and
      role of an acceptable invitation, a provisioned account, or the role the
      provider's policy maps a login to. */
  lemma StandingHasItsReason(fold: Folding, t: Tables, r: Request)
    requires Inv(t)
    ensures Justified(fold, t, r, Step(fold, t, r).0.users)
  {
    hide Step, Justified, Numbered, Vouched, OnePerEmail, Current, Linked, Followed;
    if r.ByProvider? {
      if Followed(t, r).Some? { FollowedJustified(fold, t, r); } else { UnfollowedJustified(fold, t, r); }
    } else if r.Update? {
      UpdateJustified(fold, t, r);
    } else if r.Deprovision? {
      DeprovisionJustified(fold, t, r);
    } else if r.Provision? {
      if r.key in t.provisioned && t.provisioned[r.key] in t.users {
        ReprovisionJustified(fold, t, r);
      } else {
        ProvisionJustified(fold, t, r);
      }
    } else if r.SetUp? || r.Accept? || r.LogIn? {
      EnteringJustified(fold, t, r);
    } else if r.Password? || r.DropOidc? || r.DropSaml? || r.Recover? {
      OwnRequestsJustified(fold, t, r);
    } else {
      RestJustified(fold, t, r);
    }
  }

  /** So a user becomes an owner only by setting up, by an invitation for an owner
      that an owner of now issued, by another user's update under the present tag,
      by provisioning, or because a provider's policy maps the sign-in to owner. */
  lemma OwnersHaveTheirReason(fold: Folding, t: Tables, r: Request, u: Id)
    requires Inv(t)
    ensures var t' := Step(fold, t, r).0;
            u in t'.users && IsOwner(t'.users[u]) && !(u in t.users && IsOwner(t.users[u])) ==>
                MayMakeOwner(fold, t, r, u)
  {
    StandingHasItsReason(fold, t, r);
    hide Step, RowJustified, IsOwner, Inv, MayMakeOwner;
    var users := Step(fold, t, r).0.users;
    if users != t.users {
      var v, row :| users == t.users[v := row] && RowJustified(fold, t, r, v, row);
      if v == u && IsOwner(row) && !(u in t.users && IsOwner(t.users[u])) {
        JustifiedOwner(fold, t, r, u, row);
      }
    }
  }

  predicate MayMakeOwner(fold: Folding, t: Tables, r: Request, u: Id) {
    match r
    case SetUp(_) => !t.complete
    case Accept(i, _) =>
      && Acceptable(t, i) && t.invitations[i].role == Owner
      && t.invitations[i].issuer in t.users && IsOwner(t.users[t.invitations[i].issuer])
    case Update(actor, v, ifMatch, _) =>
      u == v && u in t.users && ifMatch == t.users[u].etag && (actor == u ==> !t.users[u].active)
    case Provision(_, _, role, active) => role == Owner && active
    case ByProvider(_, _, _, _, _) => MappedBy(fold, t, r) == Some(Owner)
    case _ => false
  }

  lemma JustifiedOwner(fold: Folding, t: Tables, r: Request, u: Id, row: User)
    requires Inv(t) && RowJustified(fold, t, r, u, row) && IsOwner(row) && !(u in t.users && IsOwner(t.users[u]))
    ensures MayMakeOwner(fold, t, r, u)
  {
    hide Mapped, Numbered, OnePerEmail, Current, Linked, Free;
  }

  /** The role that a provider's policy maps a sign-in to. */
  function MappedBy(fold: Folding, t: Tables, r: Request): Option<Role>
    requires r.ByProvider?
  {
    if r.bySaml then if t.saml.Some? then Mapped(fold, t.saml.value.policy, r.email, r.groups) else None
    else if t.oidc.Some? then Mapped(fold, t.oidc.value.policy, r.email, r.groups) else None
  }

  // Emails.

  predicate EmailsDistinct(users: map<Id, User>) {
    forall u, v | u in users && v in users :: users[u].email == users[v].email ==> u == v
  }

  lemma ExplainedEmail(fold: Folding, t: Tables, r: Request, u: Id, row: User)
    requires RowJustified(fold, t, r, u, row)
    ensures (u in t.users && row.email == t.users[u].email) || Free(t.users - {u}, row.email)
  {
    hide Mapped, Followed;
    if u !in t.users {
      assert t.users - {u} == t.users;
    }
  }

  lemma OneEmailKeepsDistinct(users: map<Id, User>, u: Id, row: User)
    requires EmailsDistinct(users) && ((u in users && row.email == users[u].email) || Free(users - {u}, row.email))
    ensures EmailsDistinct(users[u := row])
  {
    forall v | v in users && v != u ensures users[v].email != row.email {
      assert Free(users - {u}, row.email) ==> v in users - {u};
    }
  }

  lemma StepKeepsEmailsDistinct(fold: Folding, t: Tables, r: Request)
    requires Inv(t) && EmailsDistinct(t.users)
    ensures EmailsDistinct(Step(fold, t, r).0.users)
  {
    StandingHasItsReason(fold, t, r);
    hide Step, RowJustified, EmailsDistinct, Inv;
    var users := Step(fold, t, r).0.users;
    if users != t.users {
      var u, row :| users == t.users[u := row] && RowJustified(fold, t, r, u, row);
      ExplainedEmail(fold, t, r, u, row);
      OneEmailKeepsDistinct(t.users, u, row);
    }
  }

  lemma {:induction false} RunKeepsEmailsDistinct(fold: Folding, t: Tables, run: seq<Request>)
    requires Inv(t) && EmailsDistinct(t.users)
    ensures EmailsDistinct(After(fold, t, run).users)
    decreases |run|
  {
    hide Step, Inv, EmailsDistinct;
    if run != [] {
      StepKeepsInv(fold, t, run[0]);
      StepKeepsEmailsDistinct(fold, t, run[0]);
      RunKeepsEmailsDistinct(fold, Step(fold, t, run[0]).0, run[1..]);
    }
  }

  /** In every reachable state no two users have the same email. */
  lemma EmailsStayDistinct(fold: Folding, t: Tables, run: seq<Request>, u: Id, v: Id)
    requires Empty(t)
    ensures var users := After(fold, t, run).users;
            u in users && v in users && users[u].email == users[v].email ==> u == v
  {
    hide Step;
    EmptyHasInv(t);
    RunKeepsEmailsDistinct(fold, t, run);
  }

  // Setting up.

  /** Setting up succeeds if and only if the installation is not set up and nobody
      has the email; it makes that owner, turns local sign-in on, and signs the
      owner in. */
  lemma SetUpMeans(fold: Folding, t: Tables, email: string)
    requires Inv(t)
    ensures var (t', y) := Step(fold, t, SetUp(email));
            && (y.SignedIn? <==> !t.complete && Free(t.users, email)) && (y.SignedIn? || (y.Refused? && t' == t))
            && (y.SignedIn? ==>
                  && t'.complete && t'.localLogin && t.next !in t.users && t.next in t'.users
                  && t'.users == t.users[t.next :=
                       User(email, Owner, true, true, Global, ByHand, true, t'.users[t.next].etag,
                         t'.users[t.next].mfaRevision)]
                  && OneNewSession(t, t', y.session, t.next))
  {
    hide Vouched, OnePerEmail, Current, Linked, Surplus;
  }

  function SetUps(fold: Folding, t: Tables, run: seq<Request>): nat
    decreases |run|
  {
    if run == [] then 0
    else
      var (t', y) := Step(fold, t, run[0]);
      (if run[0].SetUp? && !y.Refused? then 1 else 0) + SetUps(fold, t', run[1..])
  }

  lemma {:induction false} CompleteIsNotSetUp(fold: Folding, t: Tables, run: seq<Request>)
    requires Inv(t) && t.complete
    ensures SetUps(fold, t, run) == 0
    decreases |run|
  {
    hide Step, Numbered, Vouched, OnePerEmail, Current, Linked;
    if run != [] {
      if run[0].SetUp? {
        SetUpMeans(fold, t, run[0].email);
      }
      StepIsLater(fold, t, run[0]);
      StepKeepsInv(fold, t, run[0]);
      CompleteIsNotSetUp(fold, Step(fold, t, run[0]).0, run[1..]);
    }
  }

  /** In every run an installation is set up at most once. */
  lemma {:induction false} SetUpAtMostOnce(fold: Folding, t: Tables, run: seq<Request>)
    requires Inv(t)
    ensures SetUps(fold, t, run) <= 1
    decreases |run|
  {
    hide Step, Inv;
    if run != [] {
      StepKeepsInv(fold, t, run[0]);
      var (t', y) := Step(fold, t, run[0]);
      if run[0].SetUp? && !y.Refused? {
        SetUpMeans(fold, t, run[0].email);
        CompleteIsNotSetUp(fold, t', run[1..]);
      } else {
        SetUpAtMostOnce(fold, t', run[1..]);
      }
    }
  }
}
