/** Whose identities a request links and unlinks. */
module Identities {
  import opened Common
  import opened Kernel
  import opened RoleMapping
  import opened Authority
  import opened AuthorityProofs
  import opened UsableOwners
  import opened Grants
  import opened AuthorityAnswers
  import opened AuthoritySessions

  /** An identity once linked keeps its account. One is new only because a
      provider vouched for it, and is then the recipient's; one goes only because
      its own account unlinks it. */
  predicate OidcIdsFollow(t: Tables, r: Request, ids: map<(string, string), OidcIdentity>) {
    && (forall k :: k in ids ==>
          if k in t.oidcIds then ids[k].user == t.oidcIds[k].user
          else && r.ByProvider? && !r.bySaml && t.oidc.Some? && k == (t.oidc.value.issuer, r.subject)
               && RecipientOf(t, r).Some? && ids[k].user == RecipientOf(t, r).value.user)
    && (forall k :: k in t.oidcIds && k !in ids ==> UnlinkedBy(t, r, k, false))
  }

  predicate SamlIdsFollow(t: Tables, r: Request, ids: map<(string, string), SamlIdentity>) {
    && (forall k :: k in ids ==>
          if k in t.samlIds then ids[k].user == t.samlIds[k].user
          else && r.ByProvider? && r.bySaml && t.saml.Some? && k == (t.saml.value.entity, r.subject)
               && RecipientOf(t, r).Some? && ids[k].user == RecipientOf(t, r).value.user)
    && (forall k :: k in t.samlIds && k !in ids ==> UnlinkedBy(t, r, k, true))
  }

  predicate UnlinkedBy(t: Tables, r: Request, k: (string, string), saml: bool) {
    && (if saml then r.DropSaml? else r.DropOidc?) && r.key == k && Live(t, r.session)
    && (if saml then k in t.samlIds && t.samlIds[k].user == t.sessions[r.session].user
        else k in t.oidcIds && t.oidcIds[k].user == t.sessions[r.session].user)
  }

  /** What each statement does to identities: nothing. */
  lemma StatementsKeepIds(t: Tables, u: Id, row: User, signIn: Kernel.SignIn, mfa: bool, retire: bool)
    requires u in t.users
    ensures var a, b, c, d := Reassign(t, u, row, retire), Mint(t, u, signIn, mfa), Rotate(t, u, row, signIn, mfa),
            Insert(t, row);
            && a.oidcIds == b.oidcIds == c.oidcIds == d.oidcIds == t.oidcIds
            && a.samlIds == b.samlIds == c.samlIds == d.samlIds == t.samlIds
  {
    hide SessionsOf, Surplus, Retired;
  }

  lemma ApplyKeepsIds(t: Tables, u: Id, sync: Sync)
    requires u in t.users
    ensures Apply(t, u, sync).oidcIds == t.oidcIds && Apply(t, u, sync).samlIds == t.samlIds
            && u in Apply(t, u, sync).users
  {
    hide SessionsOf, Retired;
  }

  lemma SamlFollowedKeepsIds(fold: Folding, t: Tables, u: Id, facts: SamlFacts, how: How)
    requires t.saml.Some? && u in t.users
    ensures var t' := SamlFollowed(fold, t, u, facts, how).0; t'.oidcIds == t.oidcIds && t'.samlIds == t.samlIds
  {
    hide Mapped, Synced, Apply, Mint, Rotate;
    var t1 := Apply(t, u, Synced(t.users[u], Mapped(fold, t.saml.value.policy, facts.email, facts.groups), BySaml));
    ApplyKeepsIds(t, u, Synced(t.users[u], Mapped(fold, t.saml.value.policy, facts.email, facts.groups), BySaml));
    StatementsKeepIds(t1, u, t1.users[u], SignIn.Saml, false, false);
  }

  /** The identities with those of one key replaced, as a sign-in may leave them. */
  predicate OneSamlId(ids: map<(string, string), SamlIdentity>, ids': map<(string, string), SamlIdentity>,
      key: (string, string), u: Id)
  {
    ids' == ids || (key in ids' && ids'[key].user == u && ids' == ids[key := ids'[key]])
  }

  lemma SamlLinkedKeepsIds(fold: Folding, t: Tables, key: (string, string), u: Id, facts: SamlFacts, how: How)
    requires t.saml.Some? && u in t.users
    ensures var t1 := t.(samlIds := t.samlIds[key := SamlIdentity(u, Some(facts))]);
            var t' := Committed(t, SamlFollowed(fold, t1, u, facts, how)).0;
            t'.oidcIds == t.oidcIds && OneSamlId(t.samlIds, t'.samlIds, key, u)
  {
    hide SamlFollowed;
    SamlFollowedKeepsIds(fold, t.(samlIds := t.samlIds[key := SamlIdentity(u, Some(facts))]), u, facts, how);
  }

  lemma SamlNewcomerKeepsIds(fold: Folding, t: Tables, key: (string, string), row: User, facts: SamlFacts)
    requires t.saml.Some?
    ensures var t1 := Insert(t, row).(samlIds := t.samlIds[key := SamlIdentity(t.next, Some(facts))]);
            var t' := Committed(t, SamlFollowed(fold, t1, t.next, facts, Login)).0;
            t'.oidcIds == t.oidcIds && OneSamlId(t.samlIds, t'.samlIds, key, t.next)
  {
    hide SamlFollowed;
    var t1 := Insert(t, row).(samlIds := t.samlIds[key := SamlIdentity(t.next, Some(facts))]);
    SamlFollowedKeepsIds(fold, t1, t.next, facts, Login);
  }

  lemma SamlUnknownKeepsIds(fold: Folding, t: Tables, key: (string, string), facts: SamlFacts, how: How)
    requires t.saml.Some?
    ensures var t' := SamlUnknown(fold, t, key, facts, how).0;
            && t'.oidcIds == t.oidcIds
            && match how
               case Login => OneSamlId(t.samlIds, t'.samlIds, key, t.next)
               case LinkBy(s) =>
                 if Live(t, s) then OneSamlId(t.samlIds, t'.samlIds, key, t.sessions[s].user)
                 else t'.samlIds == t.samlIds
               case ReauthenticateBy(_) => t'.samlIds == t.samlIds
  {
    hide Mapped, SamlFollowed, Taken, Committed, Insert;
    match how
    case ReauthenticateBy(_) =>
    case LinkBy(s) => if Live(t, s) { SamlLinkedKeepsIds(fold, t, key, t.sessions[s].user, facts, how); }
    case Login =>
      var role := Mapped(fold, t.saml.value.policy, facts.email, facts.groups);
      if role.Some? {
        SamlNewcomerKeepsIds(fold, t, key, NewUser(facts.email, role.value, true, BySaml, false, 0), facts);
      }
  }

  lemma OneSamlIdFollows(t: Tables, r: Request, ids: map<(string, string), SamlIdentity>, u: Id)
    requires r.ByProvider? && r.bySaml && t.saml.Some? && OneSamlId(t.samlIds, ids, SamlKey(t, r), u)
    requires if SamlKey(t, r) in t.samlIds then t.samlIds[SamlKey(t, r)].user == u
             else RecipientOf(t, r).Some? && RecipientOf(t, r).value.user == u
    ensures SamlIdsFollow(t, r, ids)
  {
    hide RecipientOf;
  }

  lemma SamlKeepsIds(fold: Folding, t: Tables, r: Request)
    requires Linked(t) && r.ByProvider? && r.bySaml
    ensures var t' := Step(fold, t, r).0; t'.oidcIds == t.oidcIds && SamlIdsFollow(t, r, t'.samlIds)
  {
    hide SamlFollowed, SamlUnknown, Linked, Committed, SamlIdsFollow, OneSamlId;
    SameIdsFollow(t, r);
    if t.saml.Some? {
      var key, facts, t' := SamlKey(t, r), SamlEvidence(t, r), Step(fold, t, r).0;
      LinkedIsThere(t, key);
      if key in t.samlIds {
        var u := t.samlIds[key].user;
        SamlLinkedKeepsIds(fold, t, key, u, facts, r.how);
        if t'.samlIds != t.samlIds { OneSamlIdFollows(t, r, t'.samlIds, u); }
      } else {
        SamlUnknownKeepsIds(fold, t, key, facts, r.how);
        if t'.samlIds != t.samlIds { OneSamlIdFollows(t, r, t'.samlIds, RecipientOf(t, r).value.user); }
      }
    }
  }

  lemma LinkedIsThere(t: Tables, key: (string, string))
    requires Linked(t)
    ensures key in t.samlIds ==> t.samlIds[key].user in t.users
    ensures key in t.oidcIds ==> t.oidcIds[key].user in t.users
  {
  }

  lemma OidcKnownKeepsIds(fold: Folding, t: Tables, key: (string, string), claims: OidcClaims, how: How)
    requires t.oidc.Some? && key in t.oidcIds && t.oidcIds[key].user in t.users
    ensures var t' := OidcKnown(fold, t, key, claims, how).0;
            && t'.samlIds == t.samlIds && t'.oidcIds.Keys == t.oidcIds.Keys
            && forall k :: k in t.oidcIds ==> t'.oidcIds[k].user == t.oidcIds[k].user
  {
    hide Mapped, Synced, Apply, Mint;
    var u := t.oidcIds[key].user;
    var sync := Synced(t.users[u], Mapped(fold, t.oidc.value.policy, claims.email, claims.groups), ByOidc);
    var t0 := t.(oidcIds := t.oidcIds[key := OidcIdentity(u, Some(claims))]);
    ApplyKeepsIds(t0, u, sync);
    StatementsKeepIds(Apply(t0, u, sync), u, t.users[u], SignIn.Oidc, false, false);
  }

  lemma OidcUnknownKeepsIds(fold: Folding, t: Tables, key: (string, string), claims: OidcClaims, how: How)
    requires t.oidc.Some? && key !in t.oidcIds
    ensures var t' := OidcUnknown(fold, t, key, claims, how).0;
            && t'.samlIds == t.samlIds
            && match how
               case Login => t'.oidcIds == t.oidcIds
                 || t'.oidcIds == t.oidcIds[key := OidcIdentity(t.next, Some(claims))]
               case LinkBy(s) =>
                 t'.oidcIds == if Live(t, s) then t.oidcIds[key := OidcIdentity(t.sessions[s].user, Some(claims))]
                   else t.oidcIds
               case ReauthenticateBy(_) => t'.oidcIds == t.oidcIds
  {
    hide Mapped, Taken, Mint, Rotate;
    match how
    case ReauthenticateBy(_) =>
    case LinkBy(s) =>
      if Live(t, s) {
        var u := t.sessions[s].user;
        var t1 := t.(oidcIds := t.oidcIds[key := OidcIdentity(u, Some(claims))]);
        StatementsKeepIds(t1, u, t.users[u], SignIn.Oidc, false, false);
      }
    case Login =>
      var role := Mapped(fold, t.oidc.value.policy, claims.email, claims.groups);
      if role.Some? {
        var row := NewUser(claims.email, role.value, true, ByOidc, false, 0);
        var t1 := Insert(t, row).(oidcIds := t.oidcIds[key := OidcIdentity(t.next, Some(claims))]);
        StatementsKeepIds(t1, t.next, row, SignIn.Oidc, false, false);
      }
  }

  lemma OidcKeepsIds(fold: Folding, t: Tables, r: Request)
    requires Linked(t) && r.ByProvider? && !r.bySaml
    ensures var t' := Step(fold, t, r).0; t'.samlIds == t.samlIds && OidcIdsFollow(t, r, t'.oidcIds)
  {
    hide OidcKnown, OidcUnknown, Linked;
    if t.oidc.Some? {
      LinkedIsThere(t, OidcKey(t, r));
      if OidcKey(t, r) in t.oidcIds {
        OidcKnownKeepsIds(fold, t, OidcKey(t, r), OidcEvidence(t, r), r.how);
      } else {
        OidcUnknownKeepsIds(fold, t, OidcKey(t, r), OidcEvidence(t, r), r.how);
      }
    }
  }

  lemma UnlinkedFollows(t: Tables, r: Request, k: (string, string))
    requires r.DropOidc? && UnlinkedBy(t, r, k, false)
    ensures OidcIdsFollow(t, r, t.oidcIds - {k})
  {
  }

  lemma UnlinkedSamlFollows(t: Tables, r: Request, k: (string, string))
    requires r.DropSaml? && UnlinkedBy(t, r, k, true)
    ensures SamlIdsFollow(t, r, t.samlIds - {k})
  {
  }

  lemma UnlinkingKeepsIds(fold: Folding, t: Tables, r: Request)
    requires r.DropOidc? || r.DropSaml? || r.Password?
    ensures var t' := Step(fold, t, r).0; OidcIdsFollow(t, r, t'.oidcIds) && SamlIdsFollow(t, r, t'.samlIds)
  {
    hide Rotate, UsableOwner, OidcPath, SamlPath, SamlLinked, LocalPath, OidcIdsFollow, SamlIdsFollow;
    SameIdsFollow(t, r);
    if Live(t, r.session) {
      var u, s := t.sessions[r.session].user, t.sessions[r.session];
      var row := if r.Password? then t.users[u].(password := true) else t.users[u];
      var t1 := if r.DropOidc? then t.(oidcIds := t.oidcIds - {r.key})
                else if r.DropSaml? then t.(samlIds := t.samlIds - {r.key}) else t;
      StatementsKeepIds(t1, u, row, s.signIn, s.mfa, false);
      if r.DropOidc? && UnlinkedBy(t, r, r.key, false) {
        UnlinkedFollows(t, r, r.key);
      } else if r.DropSaml? && UnlinkedBy(t, r, r.key, true) {
        UnlinkedSamlFollows(t, r, r.key);
      }
    }
  }

  lemma SameUsersFollow(t: Tables, r: Request, t': Tables)
    requires t'.oidcIds.Keys == t.oidcIds.Keys && t'.samlIds.Keys == t.samlIds.Keys
    requires forall k :: k in t.oidcIds ==> t'.oidcIds[k].user == t.oidcIds[k].user
    requires forall k :: k in t.samlIds ==> t'.samlIds[k].user == t.samlIds[k].user
    ensures OidcIdsFollow(t, r, t'.oidcIds) && SamlIdsFollow(t, r, t'.samlIds)
  {
    hide RecipientOf, UnlinkedBy;
  }

  lemma ConfiguringKeepsIds(fold: Folding, t: Tables, r: Request)
    requires r.ConfigureOidc? || r.ConfigureSaml?
    ensures var t' := Step(fold, t, r).0; OidcIdsFollow(t, r, t'.oidcIds) && SamlIdsFollow(t, r, t'.samlIds)
  {
    hide Step, OidcIdsFollow, SamlIdsFollow;
    if r.ConfigureOidc? {
      var w := OidcConfiguredTables(t, r.oidc, r.secret);
      OidcConfigurationMeans(fold, t, r.oidc, r.secret, w);
    } else {
      var w := SamlConfiguredTables(t, r.saml);
      SamlConfigurationMeans(fold, t, r.saml, w);
    }
    SameUsersFollow(t, r, Step(fold, t, r).0);
  }

  lemma ReassignKeepsIds(t: Tables, u: Id, row: User, retire: bool)
    ensures Reassign(t, u, row, retire).oidcIds == t.oidcIds && Reassign(t, u, row, retire).samlIds == t.samlIds
  {
  }

  lemma ProtectKeepsIds(fold: Folding, t: Tables, t1: Tables, y: Reply)
    requires t1.oidcIds == t.oidcIds && t1.samlIds == t.samlIds
    ensures var t' := Protect(fold, t, t1, y).0; t'.oidcIds == t.oidcIds && t'.samlIds == t.samlIds
  {
    hide UsableOwner;
  }

  lemma ProvisionKeepsIds(fold: Folding, t: Tables, key: (string, string), email: string, role: Role, active: bool)
    ensures var t' := ProvisionUser(fold, t, key, email, role, active).0;
            t'.oidcIds == t.oidcIds && t'.samlIds == t.samlIds
  {
    hide Protect, Taken, Reassign;
    if key in t.provisioned && t.provisioned[key] in t.users {
      var u := t.provisioned[key];
      var row := t.users[u].(email := email, role := role, active := active);
      ReassignKeepsIds(t, u, row, !active || role != Owner);
      ProtectKeepsIds(fold, t, Reassign(t, u, row, !active || role != Owner), Done);
    } else {
      var t0 := Insert(t, NewUser(email, role, active, ByProvisioning, false, 0));
      ProtectKeepsIds(fold, t, t0.(provisioned := t.provisioned[key := t.next]), Done);
    }
  }

  lemma ChangingKeepsIds(fold: Folding, t: Tables, r: Request)
    requires r.Update? || r.Provision? || r.Deprovision? || r.Recover?
    ensures var t' := Step(fold, t, r).0; t'.oidcIds == t.oidcIds && t'.samlIds == t.samlIds
  {
    hide UsableOwner, Taken, Changed, Reassign, ProvisionUser;
    match r
    case Update(_, u, _, c) =>
      if u in t.users {
        var row := Changed(t.users[u], c);
        ReassignKeepsIds(t, u, row, !row.active || row.role != Owner || row.scope != Global);
      }
    case Provision(key, email, role, active) => ProvisionKeepsIds(fold, t, key, email, role, active);
    case Deprovision(key) =>
      if key in t.provisioned && t.provisioned[key] in t.users {
        ReassignKeepsIds(t, t.provisioned[key], t.users[t.provisioned[key]].(active := false), true);
      }
    case Recover(u) => if u in t.users { ReassignKeepsIds(t, u, t.users[u].(password := true), false); }
  }

  lemma MintKeepsIds(t: Tables, u: Id, signIn: Kernel.SignIn, mfa: bool)
    requires u in t.users
    ensures Mint(t, u, signIn, mfa).oidcIds == t.oidcIds && Mint(t, u, signIn, mfa).samlIds == t.samlIds
  {
  }

  lemma EnteringKeepsIds(fold: Folding, t: Tables, r: Request)
    requires r.SetUp? || r.Accept? || r.LogIn?
    ensures var t' := Step(fold, t, r).0; t'.oidcIds == t.oidcIds && t'.samlIds == t.samlIds
  {
    hide Taken, Mint, Pending;
    match r
    case SetUp(email) =>
      var t0 := Insert(t, NewUser(email, Owner, true, ByHand, true, 0));
      MintKeepsIds(t0.(complete := true, localLogin := true), t.next, Local, false);
    case Accept(i, _) =>
      if i in t.invitations {
        var inv := t.invitations[i];
        var t0 := Insert(t, NewUser(inv.email, inv.role, true, ByHand, true, 0));
        MintKeepsIds(t0.(invitations := t.invitations[i := inv.(accepted := true)]), t.next, Local, false);
      }
    case LogIn(u, _) => if u in t.users { MintKeepsIds(t, u, Local, false); }
  }

  lemma OthersKeepIds(fold: Folding, t: Tables, r: Request)
    requires r.Create? || r.Retire? || r.Allow? || r.LogOut? || r.Sweep? || r.Wait?
    ensures var t' := Step(fold, t, r).0; t'.oidcIds == t.oidcIds && t'.samlIds == t.samlIds
  {
    hide UsableOwner, Taken;
  }

  lemma SameIdsFollow(t: Tables, r: Request)
    ensures OidcIdsFollow(t, r, t.oidcIds) && SamlIdsFollow(t, r, t.samlIds)
  {
  }

  /** Over every step: an identity keeps its account while it is linked, a new one
      is the recipient's of the sign-in that brought it, and one is unlinked only
      by its own account. */
  lemma IdentitiesHaveTheirReason(fold: Folding, t: Tables, r: Request)
    requires Linked(t)
    ensures var t' := Step(fold, t, r).0; OidcIdsFollow(t, r, t'.oidcIds) && SamlIdsFollow(t, r, t'.samlIds)
  {
    hide Step, OidcIdsFollow, SamlIdsFollow;
    SameIdsFollow(t, r);
    if r.ByProvider? {
      if r.bySaml { SamlKeepsIds(fold, t, r); } else { OidcKeepsIds(fold, t, r); }
    } else if r.DropOidc? || r.DropSaml? || r.Password? {
      UnlinkingKeepsIds(fold, t, r);
    } else if r.ConfigureOidc? || r.ConfigureSaml? {
      ConfiguringKeepsIds(fold, t, r);
    } else if r.Update? || r.Provision? || r.Deprovision? || r.Recover? {
      ChangingKeepsIds(fold, t, r);
    } else if r.SetUp? || r.Accept? || r.LogIn? {
      EnteringKeepsIds(fold, t, r);
    } else {
      OthersKeepIds(fold, t, r);
    }
  }

  // Evidence.

  /** The identity holds what this sign-in asserts, in its configuration's terms. */
  predicate Recorded(t: Tables, r: Request, t': Tables)
    requires r.ByProvider?
  {
    if r.bySaml then
      && t.saml.Some? && SamlKey(t, r) in t'.samlIds && t'.samlIds[SamlKey(t, r)].facts == Some(SamlEvidence(t, r))
      && t'.samlIds - {SamlKey(t, r)} == t.samlIds - {SamlKey(t, r)} && t'.oidcIds == t.oidcIds
    else
      && t.oidc.Some? && OidcKey(t, r) in t'.oidcIds && t'.oidcIds[OidcKey(t, r)].claims == Some(OidcEvidence(t, r))
      && t'.oidcIds - {OidcKey(t, r)} == t.oidcIds - {OidcKey(t, r)} && t'.samlIds == t.samlIds
  }

  lemma OidcKnownRecords(fold: Folding, t: Tables, key: (string, string), claims: OidcClaims, how: How)
    requires t.oidc.Some? && key in t.oidcIds && t.oidcIds[key].user in t.users
    ensures var (t', y) := OidcKnown(fold, t, key, claims, how);
            && (y.Refused? ==> t' == t)
            && (!y.Refused? ==>
                  t'.samlIds == t.samlIds
                    && t'.oidcIds == t.oidcIds[key := OidcIdentity(t.oidcIds[key].user, Some(claims))])
  {
    hide Mapped, Synced, Apply, Mint;
    var u := t.oidcIds[key].user;
    var sync := Synced(t.users[u], Mapped(fold, t.oidc.value.policy, claims.email, claims.groups), ByOidc);
    var t0 := t.(oidcIds := t.oidcIds[key := OidcIdentity(u, Some(claims))]);
    ApplyKeepsIds(t0, u, sync);
    MintKeepsIds(Apply(t0, u, sync), u, SignIn.Oidc, false);
  }

  lemma OidcUnknownRecords(fold: Folding, t: Tables, key: (string, string), claims: OidcClaims, how: How)
    requires t.oidc.Some? && key !in t.oidcIds
    ensures var (t', y) := OidcUnknown(fold, t, key, claims, how);
            && (y.Refused? || y.SignedIn?) && (y.Refused? ==> t' == t)
            && (y.SignedIn? ==>
                  && t'.samlIds == t.samlIds && key in t'.oidcIds && t'.oidcIds[key].claims == Some(claims)
                  && t'.oidcIds == t.oidcIds[key := t'.oidcIds[key]])
  {
    hide Mapped, Taken, Mint, Rotate;
    match how
    case ReauthenticateBy(_) =>
    case LinkBy(s) =>
      if Live(t, s) {
        var u := t.sessions[s].user;
        var t1 := t.(oidcIds := t.oidcIds[key := OidcIdentity(u, Some(claims))]);
        StatementsKeepIds(t1, u, t.users[u], SignIn.Oidc, false, false);
      }
    case Login =>
      var role := Mapped(fold, t.oidc.value.policy, claims.email, claims.groups);
      if role.Some? {
        var row := NewUser(claims.email, role.value, true, ByOidc, false, 0);
        var t1 := Insert(t, row).(oidcIds := t.oidcIds[key := OidcIdentity(t.next, Some(claims))]);
        MintKeepsIds(t1, t.next, SignIn.Oidc, false);
      }
  }

  lemma OidcRecords(fold: Folding, t: Tables, r: Request)
    requires Linked(t) && r.ByProvider? && !r.bySaml
    ensures var (t', y) := Step(fold, t, r);
            (y.Refused? ==> t' == t) && (!y.Refused? ==> Recorded(t, r, t'))
  {
    hide OidcKnown, OidcUnknown, Linked;
    if t.oidc.Some? {
      LinkedIsThere(t, OidcKey(t, r));
      if OidcKey(t, r) in t.oidcIds {
        OidcKnownRecords(fold, t, OidcKey(t, r), OidcEvidence(t, r), r.how);
      } else {
        OidcUnknownRecords(fold, t, OidcKey(t, r), OidcEvidence(t, r), r.how);
      }
    }
  }

  lemma SamlCommitRecords(fold: Folding, t: Tables, t1: Tables, u: Id, facts: SamlFacts, how: How)
    requires t1.saml.Some? && u in t1.users
    ensures var r := Committed(t, SamlFollowed(fold, t1, u, facts, how));
            && (r.1.Refused? ==> r.0 == t)
            && (!r.1.Refused? ==> r.0.oidcIds == t1.oidcIds && r.0.samlIds == t1.samlIds)
  {
    hide SamlFollowed;
    SamlFollowedKeepsIds(fold, t1, u, facts, how);
  }

  lemma SamlUnknownRecords(fold: Folding, t: Tables, key: (string, string), facts: SamlFacts, how: How)
    requires t.saml.Some? && key !in t.samlIds
    ensures var (t', y) := SamlUnknown(fold, t, key, facts, how);
            && (y.Refused? ==> t' == t)
            && (!y.Refused? ==>
                  || (t' == t && y.Denied? && how.Login?)
                  || (&& t'.oidcIds == t.oidcIds && key in t'.samlIds && t'.samlIds[key].facts == Some(facts)
                      && t'.samlIds == t.samlIds[key := t'.samlIds[key]]))
  {
    hide Mapped, SamlFollowed, Taken, Committed;
    match how
    case ReauthenticateBy(_) =>
    case LinkBy(s) =>
      if Live(t, s) {
        var u := t.sessions[s].user;
        SamlCommitRecords(fold, t, t.(samlIds := t.samlIds[key := SamlIdentity(u, Some(facts))]), u, facts, how);
      }
    case Login =>
      var role := Mapped(fold, t.saml.value.policy, facts.email, facts.groups);
      if role.Some? {
        var t0 := Insert(t, NewUser(facts.email, role.value, true, BySaml, false, 0));
        var t1 := t0.(samlIds := t.samlIds[key := SamlIdentity(t.next, Some(facts))]);
        SamlCommitRecords(fold, t, t1, t.next, facts, how);
      }
  }

  lemma SamlKnownRecords(fold: Folding, t: Tables, r: Request)
    requires Linked(t) && r.ByProvider? && r.bySaml && t.saml.Some? && SamlKey(t, r) in t.samlIds
    ensures var (t', y) := Step(fold, t, r); (y.Refused? ==> t' == t) && (!y.Refused? ==> Recorded(t, r, t'))
  {
    hide SamlFollowed, SamlUnknown, Committed, Linked;
    var key, facts := SamlKey(t, r), SamlEvidence(t, r);
    LinkedIsThere(t, key);
    var u := t.samlIds[key].user;
    SamlCommitRecords(fold, t, t.(samlIds := t.samlIds[key := SamlIdentity(u, Some(facts))]), u, facts, r.how);
  }

  lemma SamlRecords(fold: Folding, t: Tables, r: Request)
    requires Linked(t) && r.ByProvider? && r.bySaml
    ensures var (t', y) := Step(fold, t, r);
            && (y.Refused? ==> t' == t)
            && (!y.Refused? ==> Recorded(t, r, t') || (t' == t && y.Denied? && r.how.Login? && Linkage(t, r).None?))
  {
    if t.saml.Some? && SamlKey(t, r) in t.samlIds {
      hide Step, Recorded, Linked;
      SamlKnownRecords(fold, t, r);
    } else {
      hide SamlFollowed, SamlUnknown, Committed, Linked;
      if t.saml.Some? {
        SamlUnknownRecords(fold, t, SamlKey(t, r), SamlEvidence(t, r), r.how);
      }
    }
  }

  /** Every provider sign-in that is not refused, granted or denied, leaves its
      identity with what it asserted and no other identity changed, except that a
      denied SAML login of an unknown identity leaves nothing; a refused one
      changes nothing at all. */
  lemma EvidenceIsRecorded(fold: Folding, t: Tables, r: Request)
    requires Linked(t) && r.ByProvider?
    ensures var (t', y) := Step(fold, t, r);
            && (y.Refused? ==> t' == t)
            && (!y.Refused? ==>
                  Recorded(t, r, t') || (t' == t && y.Denied? && r.bySaml && r.how.Login? && Linkage(t, r).None?))
  {
    hide Step, Recorded, Linked;
    if r.bySaml { SamlRecords(fold, t, r); } else { OidcRecords(fold, t, r); }
  }
}
