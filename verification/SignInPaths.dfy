/** What unlinking and signing in leave their user: a usable way to sign in, and
    a session that authenticates. */
module SignInPaths {
  import opened Common
  import opened Kernel
  import opened RoleMapping
  import opened Authority
  import opened AuthorityProofs

  // Unlinking leaves its user a way to sign in.

  /** Which ways count depends on who manages the account: a provider that
      assigns the role must stay able to take it away. */
  predicate HasPath(fold: Folding, t: Tables, u: Id)
    requires u in t.users
  {
    match t.users[u].management
    case ByOidc => OidcPath(fold, t, u)
    case BySaml => SamlPath(fold, t, u)
    case _ => LocalPath(t, u) || OidcPath(fold, t, u) || SamlPath(fold, t, u)
  }

  lemma RotateKeepsPaths(fold: Folding, t: Tables, u: Id, signIn: Kernel.SignIn, mfa: bool)
    requires u in t.users
    ensures var t' := Rotate(t, u, t.users[u], signIn, mfa);
            && u in t'.users && t'.users[u].management == t.users[u].management && LocalPath(t', u) == LocalPath(t, u)
            && OidcPath(fold, t', u) == OidcPath(fold, t, u) && SamlLinked(fold, t', u) == SamlLinked(fold, t, u)
            && t'.saml == t.saml && t'.now == t.now
  {
    hide OidcSignInRole, SamlSignInRole, Surplus, SessionsOf;
  }

  /** unlinkOIDC treats every account that OIDC does not manage as managed by
      hand: a user keeps a way to sign in that counts exactly when SAML does not
      manage the account or a usable SAML identity is linked to it. */
  lemma UnlinkOidcKeepsAPathExactlyWhen(fold: Folding, t: Tables, s: Id, key: (string, string))
    requires UnlinkOidc(fold, t, s, key).1.SignedIn?
    ensures var t' := UnlinkOidc(fold, t, s, key).0; var u := t.sessions[s].user;
            && u in t'.users && t'.users[u].management == t.users[u].management
            && (HasPath(fold, t', u) <==> t.users[u].management != BySaml || SamlPath(fold, t, u))
            && (LocalPath(t', u) || OidcPath(fold, t', u) || SamlPath(fold, t', u))
  {
    hide OidcPath, SamlLinked, LocalPath, Rotate, UsableOwner, InDate;
    var u := t.sessions[s].user;
    assert SamlLinked(fold, t.(oidcIds := t.oidcIds - {key}), u) == SamlLinked(fold, t,
           u) by { OidcIdsApart(fold, t, t.oidcIds - {key}, u); }
    RotateKeepsPaths(fold, t.(oidcIds := t.oidcIds - {key}), u, t.sessions[s].signIn, t.sessions[s].mfa);
  }

  lemma OidcIdsApart(fold: Folding, t: Tables, ids: map<(string, string), OidcIdentity>, u: Id)
    requires u in t.users
    ensures SamlLinked(fold, t.(oidcIds := ids), u) == SamlLinked(fold, t, u)
  {
    hide SamlSignInRole;
  }

  lemma SamlIdsApart(fold: Folding, t: Tables, ids: map<(string, string), SamlIdentity>, u: Id)
    requires u in t.users
    ensures OidcPath(fold, t.(samlIds := ids), u) == OidcPath(fold, t, u)
            && LocalPath(t.(samlIds := ids), u) == LocalPath(t, u)
  {
    hide OidcSignInRole;
  }

  predicate MetadataInDate(t: Tables) {
    t.saml.Some? && t.saml.value.enabled && InDate(t.saml.value, t.now)
  }

  /** unlinkSAML counts a linked SAML identity without looking at the clock, and
      treats every account that SAML does not manage as managed by hand: a user
      keeps a way to sign in that counts exactly when
      - OIDC manages the account and a usable OIDC identity is linked to it,
      - SAML manages it and the metadata is in date, or
      - neither does, and a password, an OIDC identity or the date will do. */
  lemma UnlinkSamlKeepsAPathExactlyWhen(fold: Folding, t: Tables, s: Id, key: (string, string))
    requires UnlinkSaml(fold, t, s, key).1.SignedIn?
    ensures var t' := UnlinkSaml(fold, t, s, key).0; var u := t.sessions[s].user;
            && u in t'.users && t'.users[u].management == t.users[u].management
            && (HasPath(fold, t', u) <==>
                match t.users[u].management
                case ByOidc => OidcPath(fold, t, u)
                case BySaml => MetadataInDate(t)
                case _ => LocalPath(t, u) || OidcPath(fold, t, u) || MetadataInDate(t))
  {
    hide OidcPath, SamlLinked, LocalPath, Rotate, UsableOwner, InDate;
    var u, t1 := t.sessions[s].user, t.(samlIds := t.samlIds - {key});
    SamlIdsApart(fold, t, t.samlIds - {key}, u);
    RotateKeepsPaths(fold, t1, u, t.sessions[s].signIn, t.sessions[s].mfa);
    if SamlLinked(fold, t1, u) {
      LinkedIsEnabled(fold, t1, u);
    }
  }

  lemma LinkedIsEnabled(fold: Folding, t: Tables, u: Id)
    requires u in t.users && SamlLinked(fold, t, u)
    ensures t.saml.Some? && t.saml.value.enabled
  {
  }

  // Where each of them fails.

  const CLAIMS: OidcClaims := OidcClaims("client", ["openid"], "email", "groups", "b@example.org", [])
  const FACTS: SamlFacts := SamlFacts("mail", "groups", "b@example.org", [])

  /** An owner with a password, user 0, and another user, 1, who is signed in and
      has one OIDC identity or some SAML identities. The provider's certificate
      is good until 10. */
  function Pair(now: Time, row: User, oidc: bool, saml: map<(string, string), SamlIdentity>): Tables {
    var policy := Policy([], [], None);
    var owner := User("a@example.org", Owner, true, true, Global, ByHand, true, 2, 2);
    Tables(
      now, 4, true, true, true, map[0 := owner, 1 := row],
        map[3 := Session(1, Local, false, now + 5, StandingOf(row))], map[],
      Some(OidcConfig(true, "issuer", "client", true, ["openid"], "email", "groups", policy)), Some(7),
      Some(SamlConfig(true, "entity", "mail", "groups", None, [(0, 10)], policy)),
      if oidc then map[("issuer", "s") := OidcIdentity(1, Some(CLAIMS))] else map[], saml, map[])
  }

  function Member(authorized: bool, management: Management, password: bool): User {
    User("b@example.org", Viewer, true, authorized, Global, management, password, 2, 2)
  }

  lemma PairIsSound(fold: Folding, now: Time, row: User, oidc: bool, saml: map<(string, string), SamlIdentity>)
    requires forall k :: k in saml ==> saml[k].user == 1
    ensures Inv(Pair(now, row, oidc, saml))
    ensures row.active && row.authorized ==> Live(Pair(now, row, oidc, saml), 3)
  {
  }

  /** The owner of a pair stays usable whatever happens to the other's identities. */
  lemma PairKeepsItsOwner(fold: Folding, t: Tables)
    requires LocalLogin(t) && 0 in t.users && IsOwner(t.users[0]) && t.users[0].password
    ensures UsableOwner(fold, t)
  {
  }

  lemma RotatedOwner(fold: Folding, t: Tables, row: User, signIn: Kernel.SignIn, mfa: bool)
    requires LocalLogin(t) && 0 in t.users && IsOwner(t.users[0]) && t.users[0].password
    ensures UsableOwner(fold, Rotate(t, 1, row, signIn, mfa))
  {
    hide SessionsOf, Surplus, UsableOwner;
    PairKeepsItsOwner(fold, Rotate(t, 1, row, signIn, mfa));
  }

  /** A SAML-managed account with a password can unlink its OIDC identity and
      keep only the password. */
  lemma SamlManagedCanKeepOnlyAPassword(fold: Folding)
    ensures var t := Pair(0, Member(true, BySaml, true), true, map[]);
            var (t', y) := UnlinkOidc(fold, t, 3, ("issuer", "s"));
            Inv(t) && y.SignedIn? && 1 in t'.users && !HasPath(fold, t', 1)
  {
    hide UsableOwner, Rotate, OidcPath;
    var row := Member(true, BySaml, true);
    var t := Pair(0, row, true, map[]);
    PairIsSound(fold, 0, row, true, map[]);
    RotatedOwner(fold, t.(oidcIds := t.oidcIds - {("issuer", "s")}), row, Local, false);
    UnlinkOidcKeepsAPathExactlyWhen(fold, t, 3, ("issuer", "s"));
  }

  /** An OIDC-managed account with a password can unlink its SAML identity and
      keep only the password. */
  lemma OidcManagedCanKeepOnlyAPassword(fold: Folding)
    ensures var t := Pair(0, Member(true, ByOidc, true), false, map[("entity", "s") := SamlIdentity(1, Some(FACTS))]);
            var (t', y) := UnlinkSaml(fold, t, 3, ("entity", "s"));
            Inv(t) && y.SignedIn? && 1 in t'.users && !HasPath(fold, t', 1)
  {
    hide UsableOwner, Rotate, SamlLinked;
    var row, ids := Member(true, ByOidc, true), map[("entity", "s") := SamlIdentity(1, Some(FACTS))];
    var t := Pair(0, row, false, ids);
    PairIsSound(fold, 0, row, false, ids);
    RotatedOwner(fold, t.(samlIds := t.samlIds - {("entity", "s")}), row, Local, false);
    UnlinkSamlKeepsAPathExactlyWhen(fold, t, 3, ("entity", "s"));
  }

  /** With the metadata out of date, one of two SAML identities can be unlinked
      although nothing else is left. */
  lemma ExpiredMetadataCanBeAllThatIsLeft(fold: Folding)
    ensures var ids := map[("entity", "s") := SamlIdentity(1, Some(FACTS)),
            ("entity", "t") := SamlIdentity(1, Some(FACTS))];
            var t := Pair(11, Member(true, ByHand, false), false, ids);
            var (t', y) := UnlinkSaml(fold, t, 3, ("entity", "s"));
            Inv(t) && y.SignedIn? && 1 in t'.users && !HasPath(fold, t', 1)
  {
    hide UsableOwner, Rotate;
    var ids := map[("entity", "s") := SamlIdentity(1, Some(FACTS)), ("entity", "t") := SamlIdentity(1, Some(FACTS))];
    var row := Member(true, ByHand, false);
    var t := Pair(11, row, false, ids);
    PairIsSound(fold, 11, row, false, ids);
    var t1 := t.(samlIds := ids - {("entity", "s")});
    assert ("entity", "t") in t1.samlIds && SamlSignInRole(fold, t.saml.value, ByHand, Viewer, Some(FACTS)).Some?;
    assert SamlLinked(fold, t1, 1);
    RotatedOwner(fold, t1, row, Local, false);
    UnlinkSamlKeepsAPathExactlyWhen(fold, t, 3, ("entity", "s"));
  }

  // Signing in leaves a session that authenticates.

  /** An OIDC login of a linked account that OIDC does not manage: the callback
      looks at the active flag only, not at the authorization. */
  predicate Unheeded(t: Tables, r: Request) {
    && r.ByProvider? && !r.bySaml && r.how.Login? && t.oidc.Some? && t.oidc.value.enabled
    && var key := (t.oidc.value.issuer, r.subject);
    && key in t.oidcIds && t.oidcIds[key].user in t.users
    && var row := t.users[t.oidcIds[key].user];
    && row.active && !row.authorized && row.management != ByOidc
  }

  lemma MintedIsLive(t: Tables, u: Id, signIn: Kernel.SignIn, mfa: bool)
    requires u in t.users
    ensures Live(Mint(t, u, signIn, mfa), t.next) <==> t.users[u].active && t.users[u].authorized
  {
  }

  lemma RotatedIsLive(t: Tables, u: Id, row: User, signIn: Kernel.SignIn, mfa: bool)
    ensures Live(Rotate(t, u, row, signIn, mfa), t.next + 1) <==> row.active && row.authorized
  {
    hide Mint;
    var t1 := t.(next := t.next + 1, users := t.users[u := row.(etag := t.next)],
      sessions := t.sessions - SessionsOf(t.sessions, u));
    MintedIsLive(t1, u, signIn, mfa);
  }

  lemma OidcKnownSession(fold: Folding, t: Tables, key: (string, string), claims: OidcClaims, how: How)
    requires t.oidc.Some? && key in t.oidcIds && t.oidcIds[key].user in t.users
    ensures var (t', y) := OidcKnown(fold, t, key, claims, how); var row := t.users[t.oidcIds[key].user];
            y.SignedIn? && !Live(t', y.session) <==>
                how.Login? && row.active && !row.authorized && row.management != ByOidc
  {
    hide Mapped, Mint, SessionsOf, Retired, Live;
    var u := t.oidcIds[key].user;
    var sync := Synced(t.users[u], Mapped(fold, t.oidc.value.policy, claims.email, claims.groups), ByOidc);
    var t1 := Apply(t.(oidcIds := t.oidcIds[key := OidcIdentity(u, Some(claims))]), u, sync);
    MintedIsLive(t1, u, SignIn.Oidc, false);
  }

  lemma OidcUnknownSession(fold: Folding, t: Tables, key: (string, string), claims: OidcClaims, how: How)
    requires t.oidc.Some?
    ensures var (t', y) := OidcUnknown(fold, t, key, claims, how); y.SignedIn? ==> Live(t', y.session)
  {
    hide Mapped, Mint, Rotate, Taken;
    match how
    case ReauthenticateBy(_) =>
    case LinkBy(s) =>
      if Live(t, s) {
        var u := t.sessions[s].user;
        RotatedIsLive(t.(oidcIds := t.oidcIds[key := OidcIdentity(u, Some(claims))]), u, t.users[u], SignIn.Oidc,
          false);
      }
    case Login =>
      var role := Mapped(fold, t.oidc.value.policy, claims.email, claims.groups);
      if role.Some? {
        var t0 := Insert(t, NewUser(claims.email, role.value, true, ByOidc, false, 0));
        MintedIsLive(t0.(oidcIds := t.oidcIds[key := OidcIdentity(t.next, Some(claims))]), t.next, SignIn.Oidc, false);
      }
  }

  lemma SamlFollowedSession(fold: Folding, t: Tables, u: Id, facts: SamlFacts, how: How)
    requires t.saml.Some? && u in t.users
    ensures var (t', y) := SamlFollowed(fold, t, u, facts, how); y.SignedIn? ==> Live(t', y.session)
  {
    hide Mapped, Synced, Apply, Mint, Rotate, Live;
    var t1 := Apply(t, u, Synced(t.users[u], Mapped(fold, t.saml.value.policy, facts.email, facts.groups), BySaml));
    assert u in t1.users by { ApplyKeepsUser(t, u,
           Synced(t.users[u], Mapped(fold, t.saml.value.policy, facts.email, facts.groups), BySaml)); }
    MintedIsLive(t1, u, SignIn.Saml, false);
    RotatedIsLive(t1, u, t1.users[u], SignIn.Saml, false);
  }

  lemma ApplyKeepsUser(t: Tables, u: Id, sync: Sync)
    requires u in t.users
    ensures u in Apply(t, u, sync).users
  {
  }

  lemma SamlKnownSession(fold: Folding, t: Tables, key: (string, string), facts: SamlFacts, how: How)
    requires t.saml.Some? && key in t.samlIds && t.samlIds[key].user in t.users
    ensures var (t', y) := SamlKnown(fold, t, key, facts, how); y.SignedIn? ==> Live(t', y.session)
  {
    hide SamlFollowed, Live;
    var u := t.samlIds[key].user;
    SamlFollowedSession(fold, t.(samlIds := t.samlIds[key := SamlIdentity(u, Some(facts))]), u, facts, how);
  }

  lemma SamlUnknownSession(fold: Folding, t: Tables, key: (string, string), facts: SamlFacts, how: How)
    requires t.saml.Some?
    ensures var (t', y) := SamlUnknown(fold, t, key, facts, how); y.SignedIn? ==> Live(t', y.session)
  {
    hide Mapped, SamlFollowed, Taken;
    match how
    case ReauthenticateBy(_) =>
    case LinkBy(s) =>
      if Live(t, s) {
        var u := t.sessions[s].user;
        hide Live;
        SamlFollowedSession(fold, t.(samlIds := t.samlIds[key := SamlIdentity(u, Some(facts))]), u, facts, how);
      }
    case Login =>
      hide Live;
      var role := Mapped(fold, t.saml.value.policy, facts.email, facts.groups);
      if role.Some? {
        var t0 := Insert(t, NewUser(facts.email, role.value, true, BySaml, false, 0));
        SamlFollowedSession(fold, t0.(samlIds := t.samlIds[key := SamlIdentity(t.next, Some(facts))]), t.next, facts,
          how);
      }
  }

  lemma SamlSession(fold: Folding, t: Tables, subject: string, email: string, groups: seq<string>, how: How)
    ensures var (t', y) := SamlSignIn(fold, t, subject, email, groups, how); y.SignedIn? ==> Live(t', y.session)
  {
    hide SamlKnown, SamlUnknown;
    if t.saml.Some? {
      var facts := SamlFacts(t.saml.value.emailAttribute, t.saml.value.groupsAttribute, email, groups);
      var key := (t.saml.value.entity, subject);
      if key in t.samlIds && t.samlIds[key].user in t.users {
        SamlKnownSession(fold, t, key, facts, how);
      } else {
        SamlUnknownSession(fold, t, key, facts, how);
      }
    }
  }

  lemma OidcSession(fold: Folding, t: Tables, r: Request)
    requires r.ByProvider? && !r.bySaml
    ensures var (t', y) := OidcSignIn(fold, t, r.subject, r.email, r.groups, r.how);
            y.SignedIn? && !Live(t', y.session) <==> Unheeded(t, r)
  {
    hide OidcKnown, OidcUnknown;
    if t.oidc.Some? {
      var c := t.oidc.value;
      var key := (c.issuer, r.subject);
      var claims := OidcClaims(c.client, c.scopes, c.emailClaim, c.groupsClaim, r.email, r.groups);
      if key in t.oidcIds && t.oidcIds[key].user in t.users {
        OidcKnownSession(fold, t, key, claims, r.how);
      } else {
        OidcUnknownSession(fold, t, key, claims, r.how);
      }
    }
  }

  lemma FirstSessions(fold: Folding, t: Tables, r: Request)
    requires r.SetUp? || r.Accept? || r.LogIn?
    ensures var (t', y) := Step(fold, t, r); y.SignedIn? ==> Live(t', y.session)
  {
    hide Mint, Taken;
    match r
    case SetUp(email) =>
      var t0 := Insert(t, NewUser(email, Owner, true, ByHand, true, 0));
      MintedIsLive(t0.(complete := true, localLogin := true), t.next, Local, false);
    case Accept(i, _) =>
      if i in t.invitations {
        var inv := t.invitations[i];
        var t0 := Insert(t, NewUser(inv.email, inv.role, true, ByHand, true, 0));
        MintedIsLive(t0.(invitations := t.invitations[i := inv.(accepted := true)]), t.next, Local, false);
      }
    case LogIn(u, _) => if u in t.users { MintedIsLive(t, u, Local, false); }
  }

  lemma RotatedSessions(fold: Folding, t: Tables, r: Request)
    requires r.Password? || r.DropOidc? || r.DropSaml?
    ensures var (t', y) := Step(fold, t, r); y.SignedIn? ==> Live(t', y.session)
  {
    hide Rotate, UsableOwner, OidcPath, SamlPath, SamlLinked, LocalPath;
    if Live(t, r.session) {
      var u, s := t.sessions[r.session].user, t.sessions[r.session];
      match r
      case Password(_) => RotatedIsLive(t, u, t.users[u].(password := true), s.signIn, s.mfa);
      case DropOidc(_, key) => RotatedIsLive(t.(oidcIds := t.oidcIds - {key}), u, t.users[u], s.signIn, s.mfa);
      case DropSaml(_, key) => RotatedIsLive(t.(samlIds := t.samlIds - {key}), u, t.users[u], s.signIn, s.mfa);
    }
  }

  lemma OtherSessions(fold: Folding, t: Tables, r: Request)
    requires !r.ByProvider?
    ensures var (t', y) := Step(fold, t, r); y.SignedIn? ==> Live(t', y.session)
  {
    if r.SetUp? || r.Accept? || r.LogIn? {
      hide Step, Live;
      FirstSessions(fold, t, r);
    } else if r.Password? || r.DropOidc? || r.DropSaml? {
      hide Step, Live;
      RotatedSessions(fold, t, r);
    } else {
      hide Live, Reassign, UsableOwner, Taken, Validated, InDate;
    }
  }

  /** A request is answered with a session that authenticates nothing if and only
      if it is an OIDC login of an active but unauthorized account that OIDC does
      not manage. */
  lemma DeadSessionExactlyWhenUnheeded(fold: Folding, t: Tables, r: Request)
    ensures var (t', y) := Step(fold, t, r); y.SignedIn? && !Live(t', y.session) <==> Unheeded(t, r)
  {
    hide OidcSignIn, SamlSignIn, Live;
    if !r.ByProvider? {
      OtherSessions(fold, t, r);
    } else if r.bySaml {
      SamlSession(fold, t, r.subject, r.email, r.groups, r.how);
    } else {
      OidcSession(fold, t, r);
    }
  }

  /** There is such an account: SAML withdrew its authorization, and an OIDC
      identity is still linked to it. */
  lemma UnauthorizedCanBeSignedIn(fold: Folding)
    ensures var t := Pair(0, Member(false, BySaml, false), true, map[]);
            var (t', y) := OidcSignIn(fold, t, "s", "b@example.org", [], Login);
            Inv(t) && y.SignedIn? && !Live(t', y.session)
  {
    hide OidcSignIn, Live, Inv;
    var t := Pair(0, Member(false, BySaml, false), true, map[]);
    PairIsSound(fold, 0, Member(false, BySaml, false), true, map[]);
    var r := ByProvider(false, "s", "b@example.org", [], Login);
    assert Unheeded(t, r);
    OidcSession(fold, t, r);
  }
}
