/** When a usable owner is kept, and exactly when one is lost. */
module UsableOwners {
  import opened Common
  import opened Kernel
  import opened RoleMapping
  import opened Authority
  import opened AuthorityProofs

  // A usable owner remains.

  /** Nothing that a usable owner rests on is taken away. */
  predicate Preserves(t: Tables, t': Tables) {
    && t'.now == t.now && t'.switch == t.switch && (t.localLogin ==> t'.localLogin) && t'.oidc == t.oidc
       && t'.saml == t.saml
    && (forall u :: u in t.users ==> u in t'.users && SameAuthority(t.users[u], t'.users[u]))
    && (forall k :: k in t.oidcIds ==> k in t'.oidcIds && t'.oidcIds[k] == t.oidcIds[k])
    && (forall k :: k in t.samlIds ==> k in t'.samlIds && t'.samlIds[k] == t.samlIds[k])
  }

  predicate SameAuthority(u: User, u': User) {
    StandingOf(u') == StandingOf(u) && u'.management == u.management && (u.password ==> u'.password)
  }

  lemma PreservingKeepsOwner(fold: Folding, t: Tables, t': Tables)
    requires Preserves(t, t') && UsableOwner(fold, t)
    ensures UsableOwner(fold, t')
  {
    hide InDate, Mapped, Matches;
    if LocalOwner(t) {
      var u :| u in t.users && IsOwner(t.users[u]) && t.users[u].password;
      assert u in t'.users && IsOwner(t'.users[u]) && t'.users[u].password;
    } else if SamlOwner(fold, t) {
      var key :| key in t.samlIds && SamlOwns(fold, t, key);
      assert key in t'.samlIds && SamlOwns(fold, t', key);
    } else {
      var key :| key in t.oidcIds && OidcOwns(fold, t, key);
      assert key in t'.oidcIds && OidcOwns(fold, t', key);
    }
  }

  /** The changes that EnsureUsableOwner protects. */
  predicate Protected(r: Request) {
    r.Update? || r.Provision? || r.Deprovision? || r.ConfigureOidc? || r.ConfigureSaml? || r.Allow? || r.DropOidc?
      || r.DropSaml?
  }

  lemma ProtectedKeepsOwner(fold: Folding, t: Tables, r: Request)
    requires Protected(r)
    ensures Step(fold, t, r) == (t, Refused) || UsableOwner(fold, Step(fold, t, r).0)
  {
    hide UsableOwner, Validated, InDate, Taken, OidcPath, SamlPath, SamlLinked, LocalPath, Rotate, Reassign;
  }

  lemma MintPreserves(t: Tables, t1: Tables, u: Id, signIn: Kernel.SignIn, mfa: bool)
    requires Preserves(t, t1) && u in t1.users
    ensures Preserves(t, Mint(t1, u, signIn, mfa))
  {
    hide SameAuthority, Surplus;
  }

  lemma InsertPreserves(t: Tables, row: User)
    requires Numbered(t)
    ensures Preserves(t, Insert(t, row))
  {
  }

  lemma PasswordPreserves(t: Tables, u: Id)
    requires u in t.users
    ensures Preserves(t, Reassign(t, u, t.users[u].(password := true), false))
  {
  }

  lemma SetupPreserves(t: Tables, email: string)
    requires Numbered(t)
    ensures Preserves(t, Setup(t, email).0)
  {
    hide Taken, Mint, SameAuthority;
    InsertPreserves(t, NewUser(email, Owner, true, ByHand, true, 0));
    MintPreserves(t, Insert(t, NewUser(email, Owner, true, ByHand, true, 0)).(complete := true, localLogin := true),
      t.next, Local, false);
  }

  lemma AcceptPreserves(t: Tables, i: Id, mint: bool)
    requires Numbered(t)
    ensures Preserves(t, AcceptInvitation(t, i, mint).0)
  {
    hide Taken, Mint, SameAuthority, Pending;
    SamePreserves(t);
    if i in t.invitations {
      var inv := t.invitations[i];
      var row := NewUser(inv.email, inv.role, true, ByHand, true, 0);
      InsertPreserves(t, row);
      MintPreserves(t, Insert(t, row).(invitations := t.invitations[i := inv.(accepted := true)]), t.next, Local,
        false);
    }
  }

  lemma SetPasswordPreserves(t: Tables, s: Id)
    ensures Preserves(t, SetPassword(t, s).0)
  {
    hide Mint;
    if Live(t, s) {
      var u := t.sessions[s].user;
      PasswordPreserves(t, u);
      MintPreserves(t, Reassign(t, u, t.users[u].(password := true), false), u, t.sessions[s].signIn,
        t.sessions[s].mfa);
    }
  }

  lemma UnprotectedPreserves(fold: Folding, t: Tables, r: Request)
    requires Numbered(t) && !Protected(r) && !r.ByProvider? && !r.Wait?
    ensures Preserves(t, Step(fold, t, r).0)
  {
    hide Taken, Surplus, Pending, SessionsOf, Mint, Reassign, Numbered, SameAuthority, Setup, AcceptInvitation,
      SetPassword;
    assert Preserves(t, t) by { SamePreserves(t); }
    match r
    case SetUp(email) => SetupPreserves(t, email);
    case Accept(i, mint) => AcceptPreserves(t, i, mint);
    case Password(s) => SetPasswordPreserves(t, s);
    case Recover(u) => if u in t.users { PasswordPreserves(t, u); }
    case LogIn(u, mint) => if u in t.users { MintPreserves(t, t, u, Local, false); }
    case _ =>
  }

  lemma SamePreserves(t: Tables)
    ensures Preserves(t, t)
  {
  }

  /** No administrative step removes the last usable owner. */
  lemma StepKeepsOwner(fold: Folding, t: Tables, r: Request)
    requires Numbered(t) && UsableOwner(fold, t) && !r.ByProvider? && !r.Wait?
    ensures UsableOwner(fold, Step(fold, t, r).0)
  {
    hide UsableOwner, Step, Preserves, Numbered;
    if Protected(r) {
      ProtectedKeepsOwner(fold, t, r);
    } else {
      UnprotectedPreserves(fold, t, r);
      PreservingKeepsOwner(fold, t, Step(fold, t, r).0);
    }
  }

  /** The clock can: waiting keeps the owner exactly when the owner signs in
      locally or through OIDC, or the SAML metadata and a certificate are still
      in date by then. */
  lemma WaitingKeepsOwnerExactlyWhenInDate(fold: Folding, t: Tables, until: Time)
    requires UsableOwner(fold, t) && until >= t.now
    ensures UsableOwner(fold, Step(fold, t, Wait(until)).0) <==>
              LocalOwner(t) || OidcOwner(fold, t) || InDate(t.saml.value, until)
  {
    hide InDate, Mapped, Matches;
    var t' := Step(fold, t, Wait(until)).0;
    assert LocalOwner(t') == LocalOwner(t);
    assert forall key :: OidcOwns(fold, t', key) == OidcOwns(fold, t, key);
    assert forall key :: SamlOwns(fold, t', key) == SamlOwns(fold, t, key);
  }

  // A provider can too: a sign-in lets it assign the role of the account it
  // manages. Which account a sign-in follows, and what is left without it.

  function Source(bySaml: bool): Management {
    if bySaml then BySaml else ByOidc
  }

  /** The account whose authority a provider sign-in follows: the one linked to
      the identity, and with SAML also the one it is being linked to. */
  function Followed(t: Tables, r: Request): Option<Id>
    requires r.ByProvider?
  {
    if !r.how.Login? && !Live(t, r.how.session) then None
    else if r.bySaml then
      if t.saml.None? || !t.saml.value.enabled then None
      else
        var key := (t.saml.value.entity, r.subject);
        if key !in t.samlIds || t.samlIds[key].user !in t.users then
          if r.how.LinkBy? then Some(t.sessions[r.how.session].user) else None
        else if r.how.LinkBy? || (r.how.ReauthenticateBy? && t.samlIds[key].user != t.sessions[r.how.session].user) then
          None
        else Some(t.samlIds[key].user)
    else if t.oidc.None? || !t.oidc.value.enabled then None
    else
      var key := (t.oidc.value.issuer, r.subject);
      if key !in t.oidcIds || t.oidcIds[key].user !in t.users || r.how.LinkBy? then None
      else if r.how.ReauthenticateBy? && t.oidcIds[key].user != t.sessions[r.how.session].user then None
      else Some(t.oidcIds[key].user)
  }

  /** The role its provider now assigns to the account a sign-in follows. */
  function RoleGiven(fold: Folding, t: Tables, r: Request): Option<Role>
    requires r.ByProvider? && Followed(t, r).Some?
  {
    Mapped(fold, if r.bySaml then t.saml.value.policy else t.oidc.value.policy, r.email, r.groups)
  }

  /** The installation as if the account did not exist. */
  function Without(t: Tables, u: Id): Tables {
    t.(users := t.users - {u})
  }

  /** The provider does not manage the account, or makes it owner, or there is a
      usable owner besides it. */
  predicate Spares(fold: Folding, t: Tables, r: Request)
    requires r.ByProvider?
  {
    Followed(t, r).Some? ==>
      var u := Followed(t, r).value;
      || (u in t.users && t.users[u].management != Source(r.bySaml))
      || RoleGiven(fold, t, r) == Some(Owner)
      || UsableOwner(fold, Without(t, u))
  }

  /** What following a provider does to the account's row. */
  predicate RowFollows(row: User, row': User, mapped: Option<Role>, source: Management) {
    && row' == row.(role := row'.role, authorized := row'.authorized, etag := row'.etag)
    && var sync := Synced(row, mapped, source);
    || (row'.role == sync.role && row'.authorized == sync.authorized)
    || (!row.active && row'.role == row.role && row'.authorized == row.authorized)
  }

  /** The users other than `u` are the same. */
  ghost predicate SameBut(users: map<Id, User>, users': map<Id, User>, u: Id) {
    forall w :: w != u ==> (w in users' <==> w in users) && (w in users ==> users'[w] == users[w])
  }

  /** What following a provider does, apart from identities, sessions and
      invitations. */
  ghost predicate Moves(t: Tables, t': Tables, u: Id, mapped: Option<Role>, source: Management) {
    && t'.now == t.now && t'.switch == t.switch && t'.localLogin == t.localLogin && t'.oidc == t.oidc
       && t'.saml == t.saml
    && u in t.users && u in t'.users && SameBut(t.users, t'.users, u)
       && RowFollows(t.users[u], t'.users[u], mapped, source)
  }

  ghost predicate Follows(fold: Folding, t: Tables, t': Tables, r: Request, u: Id)
    requires r.ByProvider? && Followed(t, r) == Some(u)
  {
    && Moves(t, t', u, RoleGiven(fold, t, r), Source(r.bySaml))
    && (t'.oidcIds == t.oidcIds
       || (!r.bySaml && t'.oidcIds == t.oidcIds[OidcKey(t, r) := OidcIdentity(u, Some(OidcEvidence(t, r)))]))
    && (t'.samlIds == t.samlIds
       || (r.bySaml && t'.samlIds == t.samlIds[SamlKey(t, r) := SamlIdentity(u, Some(SamlEvidence(t, r)))]))
  }

  function OidcKey(t: Tables, r: Request): (string, string)
    requires r.ByProvider? && t.oidc.Some?
  {
    (t.oidc.value.issuer, r.subject)
  }

  function SamlKey(t: Tables, r: Request): (string, string)
    requires r.ByProvider? && t.saml.Some?
  {
    (t.saml.value.entity, r.subject)
  }

  function OidcEvidence(t: Tables, r: Request): OidcClaims
    requires r.ByProvider? && t.oidc.Some?
  {
    var c := t.oidc.value;
    OidcClaims(c.client, c.scopes, c.emailClaim, c.groupsClaim, r.email, r.groups)
  }

  function SamlEvidence(t: Tables, r: Request): SamlFacts
    requires r.ByProvider? && t.saml.Some?
  {
    SamlFacts(t.saml.value.emailAttribute, t.saml.value.groupsAttribute, r.email, r.groups)
  }

  lemma SyncedRowFollows(row: User, mapped: Option<Role>, source: Management)
    ensures var sync := Synced(row, mapped, source);
            && RowFollows(row, row.(role := sync.role, authorized := sync.authorized), mapped, source)
            && (!sync.changed ==> RowFollows(row, row, mapped, source))
  {
  }

  lemma ReassignMoves(t: Tables, u: Id, row: User, retire: bool, mapped: Option<Role>, source: Management)
    requires u in t.users && RowFollows(t.users[u], row, mapped, source)
    ensures var t' := Reassign(t, u, row, retire);
            Moves(t, t', u, mapped, source) && t'.oidcIds == t.oidcIds && t'.samlIds == t.samlIds
  {
    hide SessionsOf, Retired, Synced;
  }

  lemma ApplyMoves(t: Tables, u: Id, mapped: Option<Role>, source: Management)
    requires u in t.users
    ensures var t' := Apply(t, u, Synced(t.users[u], mapped, source));
            Moves(t, t', u, mapped, source) && t'.oidcIds == t.oidcIds && t'.samlIds == t.samlIds
  {
    hide Reassign, Synced, RowFollows;
    var sync := Synced(t.users[u], mapped, source);
    SyncedRowFollows(t.users[u], mapped, source);
    if sync.changed {
      var row := t.users[u].(role := sync.role, authorized := sync.authorized);
      ReassignMoves(t, u, row, !sync.allowed || sync.role != Owner, mapped, source);
    }
  }

  lemma MintMoves(t: Tables, t1: Tables, u: Id, mapped: Option<Role>, source: Management, signIn: Kernel.SignIn)
    requires Moves(t, t1, u, mapped, source)
    ensures var t' := Mint(t1, u, signIn, false);
            Moves(t, t', u, mapped, source) && t'.oidcIds == t1.oidcIds && t'.samlIds == t1.samlIds
  {
    hide SessionsOf, Surplus, RowFollows;
  }

  lemma RotateMoves(t: Tables, t1: Tables, u: Id, mapped: Option<Role>, source: Management, signIn: Kernel.SignIn)
    requires Moves(t, t1, u, mapped, source)
    ensures var t' := Rotate(t1, u, t1.users[u], signIn, false);
            Moves(t, t', u, mapped, source) && t'.oidcIds == t1.oidcIds && t'.samlIds == t1.samlIds
  {
    hide Mint;
    var t2 := t1.(next := t1.next + 1, users := t1.users[u := t1.users[u].(etag := t1.next)],
                  sessions := t1.sessions - SessionsOf(t1.sessions, u));
    MintMoves(t, t2, u, mapped, source, signIn);
  }

  lemma InactiveStays(t: Tables, u: Id, mapped: Option<Role>, source: Management)
    requires u in t.users && !t.users[u].active
    ensures Moves(t, t, u, mapped, source)
  {
  }

  lemma OidcKnownFollows(fold: Folding, t: Tables, key: (string, string), claims: OidcClaims, how: How)
    requires t.oidc.Some? && key in t.oidcIds && t.oidcIds[key].user in t.users && !how.LinkBy?
    ensures var t' := OidcKnown(fold, t, key, claims, how).0; var u := t.oidcIds[key].user;
            && Moves(t, t', u, Mapped(fold, t.oidc.value.policy, claims.email, claims.groups), ByOidc)
               && t'.samlIds == t.samlIds
            && (t'.oidcIds == t.oidcIds || t'.oidcIds == t.oidcIds[key := OidcIdentity(u, Some(claims))])
  {
    hide Mapped, Synced, Apply, RowFollows, Mint;
    var u := t.oidcIds[key].user;
    var mapped := Mapped(fold, t.oidc.value.policy, claims.email, claims.groups);
    var t0 := t.(oidcIds := t.oidcIds[key := OidcIdentity(u, Some(claims))]);
    ApplyMoves(t0, u, mapped, ByOidc);
    MintMoves(t0, Apply(t0, u, Synced(t.users[u], mapped, ByOidc)), u, mapped, ByOidc, SignIn.Oidc);
    if !t.users[u].active {
      InactiveStays(t, u, mapped, ByOidc);
    }
  }

  lemma OidcSignInFollows(fold: Folding, t: Tables, r: Request)
    requires r.ByProvider? && !r.bySaml && Followed(t, r).Some?
    ensures Follows(fold, t, Step(fold, t, r).0, r, Followed(t, r).value)
  {
    hide Mapped, OidcKnown, Moves;
    OidcKnownFollows(fold, t, OidcKey(t, r), OidcEvidence(t, r), r.how);
  }

  lemma UnsyncedStays(t: Tables, u: Id, mapped: Option<Role>, source: Management)
    requires u in t.users && Synced(t.users[u], mapped, source).allowed
    requires var t' := Apply(t, u, Synced(t.users[u], mapped, source));
             u in t'.users && !(t'.users[u].active && t'.users[u].authorized)
    ensures Moves(t, t, u, mapped, source)
  {
    hide SessionsOf, Retired;
  }

  lemma SamlFollowedFollows(fold: Folding, t: Tables, u: Id, facts: SamlFacts, how: How)
    requires t.saml.Some? && u in t.users
    ensures var t' := SamlFollowed(fold, t, u, facts, how).0;
            && Moves(t, t', u, Mapped(fold, t.saml.value.policy, facts.email, facts.groups), BySaml)
            && t'.oidcIds == t.oidcIds && t'.samlIds == t.samlIds
            && (SamlFollowed(fold, t, u, facts, how).1.Refused? ==> t' == t)
  {
    hide Mapped, Synced, Apply, Mint, Rotate, RowFollows;
    var mapped := Mapped(fold, t.saml.value.policy, facts.email, facts.groups);
    var sync := Synced(t.users[u], mapped, BySaml);
    var t1 := Apply(t, u, sync);
    ApplyMoves(t, u, mapped, BySaml);
    MintMoves(t, t1, u, mapped, BySaml, SignIn.Saml);
    RotateMoves(t, t1, u, mapped, BySaml, SignIn.Saml);
    if sync.allowed && !(t1.users[u].active && t1.users[u].authorized) {
      UnsyncedStays(t, u, mapped, BySaml);
    }
  }

  lemma SamlSignInFollows(fold: Folding, t: Tables, r: Request)
    requires r.ByProvider? && r.bySaml && Followed(t, r).Some?
    ensures Follows(fold, t, Step(fold, t, r).0, r, Followed(t, r).value)
  {
    hide Mapped, SamlFollowed, RowFollows;
    var u := Followed(t, r).value;
    var linked := t.(samlIds := t.samlIds[SamlKey(t, r) := SamlIdentity(u, Some(SamlEvidence(t, r)))]);
    SamlFollowedFollows(fold, linked, u, SamlEvidence(t, r), r.how);
  }

  // An account that is no owner any more counts for nothing; all others stay.

  ghost predicate OthersKept(t: Tables, t': Tables, u: Id) {
    && SameBut(t.users, t'.users, u)
    && (forall k :: k in t.oidcIds && t.oidcIds[k].user != u ==> k in t'.oidcIds && t'.oidcIds[k] == t.oidcIds[k])
    && (forall k :: k in t'.oidcIds && t'.oidcIds[k].user != u ==> k in t.oidcIds && t.oidcIds[k] == t'.oidcIds[k])
    && (forall k :: k in t.samlIds && t.samlIds[k].user != u ==> k in t'.samlIds && t'.samlIds[k] == t.samlIds[k])
    && (forall k :: k in t'.samlIds && t'.samlIds[k].user != u ==> k in t.samlIds && t.samlIds[k] == t'.samlIds[k])
  }

  lemma FollowingKeepsOthers(fold: Folding, t: Tables, t': Tables, r: Request, u: Id)
    requires Linked(t) && r.ByProvider? && Followed(t, r) == Some(u) && Follows(fold, t, t', r, u)
    ensures OthersKept(t, t', u)
  {
    hide RowFollows, Mapped;
  }

  lemma OidcOwnsElsewhere(fold: Folding, t: Tables, t': Tables, u: Id, key: (string, string))
    requires OthersKept(t, t', u) && t'.oidc == t.oidc && u in t'.users && !IsOwner(t'.users[u])
    ensures OidcOwns(fold, t', key) == OidcOwns(fold, Without(t, u), key)
  {
    hide OidcSignInRole, IsOwner;
    if OidcOwns(fold, t', key) {
      assert t'.oidcIds[key].user != u;
      assert OidcOwns(fold, Without(t, u), key);
    }
    if OidcOwns(fold, Without(t, u), key) {
      assert t.oidcIds[key].user != u;
      assert OidcOwns(fold, t', key);
    }
  }

  lemma SamlOwnsElsewhere(fold: Folding, t: Tables, t': Tables, u: Id, key: (string, string))
    requires OthersKept(t, t', u) && t'.saml == t.saml && u in t'.users && !IsOwner(t'.users[u])
    ensures SamlOwns(fold, t', key) == SamlOwns(fold, Without(t, u), key)
  {
    hide SamlSignInRole, IsOwner;
    if SamlOwns(fold, t', key) {
      assert t'.samlIds[key].user != u;
      assert SamlOwns(fold, Without(t, u), key);
    }
    if SamlOwns(fold, Without(t, u), key) {
      assert t.samlIds[key].user != u;
      assert SamlOwns(fold, t', key);
    }
  }

  lemma LocalOwnerElsewhere(t: Tables, t': Tables, u: Id)
    requires SameBut(t.users, t'.users, u) && t'.switch == t.switch && t'.localLogin == t.localLogin
    requires u in t'.users && !IsOwner(t'.users[u])
    ensures LocalOwner(t') == LocalOwner(Without(t, u))
  {
    hide IsOwner;
    var without := Without(t, u).users;
    if LocalOwner(t') {
      var w :| w in t'.users && IsOwner(t'.users[w]) && t'.users[w].password;
      assert w in without && IsOwner(without[w]) && without[w].password;
    }
    if LocalOwner(Without(t, u)) {
      var w :| w in without && IsOwner(without[w]) && without[w].password;
      assert w in t'.users && IsOwner(t'.users[w]) && t'.users[w].password;
    }
  }

  lemma OwnersOf(fold: Folding, t: Tables, t': Tables)
    requires t'.now == t.now && t'.oidc == t.oidc && t'.saml == t.saml
    requires LocalOwner(t') == LocalOwner(t)
    requires forall key :: OidcOwns(fold, t', key) == OidcOwns(fold, t, key)
    requires forall key :: SamlOwns(fold, t', key) == SamlOwns(fold, t, key)
    ensures UsableOwner(fold, t') == UsableOwner(fold, t)
  {
    hide InDate, LocalOwner;
    assert forall key :: OidcOwns(fold, t, key) ==> key in t.oidcIds;
    assert forall key :: OidcOwns(fold, t', key) ==> key in t'.oidcIds;
    assert forall key :: SamlOwns(fold, t, key) ==> key in t.samlIds;
    assert forall key :: SamlOwns(fold, t', key) ==> key in t'.samlIds;
    hide OidcOwns, SamlOwns;
  }

  lemma LostOwnerLeavesTheOthers(fold: Folding, t: Tables, t': Tables, r: Request, u: Id)
    requires Linked(t) && r.ByProvider? && Followed(t, r) == Some(u) && Follows(fold, t, t', r, u)
             && !IsOwner(t'.users[u])
    ensures UsableOwner(fold, t') == UsableOwner(fold, Without(t, u))
  {
    hide OidcOwns, SamlOwns, LocalOwner, UsableOwner, OthersKept, RowFollows, Mapped, IsOwner, Linked;
    FollowingKeepsOthers(fold, t, t', r, u);
    forall key ensures OidcOwns(fold, t', key) == OidcOwns(fold, Without(t, u),
      key) { OidcOwnsElsewhere(fold, t, t', u, key); }
    forall key ensures SamlOwns(fold, t', key) == SamlOwns(fold, Without(t, u),
      key) { SamlOwnsElsewhere(fold, t, t', u, key); }
    LocalOwnerElsewhere(t, t', u);
    OwnersOf(fold, Without(t, u), t');
  }

  // An account that its provider does not manage, or makes owner, stays usable.

  lemma FollowedRow(row: User, row': User, mapped: Option<Role>, source: Management)
    requires RowFollows(row, row', mapped, source)
    ensures row.management == source && mapped != Some(Owner) ==> !IsOwner(row')
    ensures (row.management != source || mapped == Some(Owner)) && IsOwner(row) ==> IsOwner(row')
  {
  }

  /** Nobody who counts stops counting. */
  ghost predicate Grants(fold: Folding, t: Tables, t': Tables) {
    && t'.now == t.now && t'.oidc == t.oidc && t'.saml == t.saml && (LocalOwner(t) ==> LocalOwner(t'))
    && (forall key :: OidcOwns(fold, t, key) ==> OidcOwns(fold, t', key))
    && (forall key :: SamlOwns(fold, t, key) ==> SamlOwns(fold, t', key))
  }

  lemma GrantingKeepsOwner(fold: Folding, t: Tables, t': Tables)
    requires Grants(fold, t, t') && UsableOwner(fold, t)
    ensures UsableOwner(fold, t')
  {
    hide InDate, LocalOwner;
    assert forall key :: OidcOwns(fold, t', key) ==> key in t'.oidcIds;
    assert forall key :: SamlOwns(fold, t', key) ==> key in t'.samlIds;
    hide OidcOwns, SamlOwns;
  }

  /** Claims recorded now match at least as well as those that matched before. */
  lemma NewEvidenceMatches(t: Tables, r: Request, claims: OidcClaims)
    requires r.ByProvider? && t.oidc.Some? && Matches(t.oidc.value, claims)
    ensures Matches(t.oidc.value, OidcEvidence(t, r))
  {
    assert claims.scopes[0] in t.oidc.value.scopes;
  }

  lemma OidcOwnsStill(fold: Folding, t: Tables, t': Tables, r: Request, u: Id, key: (string, string))
    requires r.ByProvider? && Followed(t, r) == Some(u) && Follows(fold, t, t', r, u) && OidcOwns(fold, t, key)
    requires t.users[u].management != Source(r.bySaml) || RoleGiven(fold, t, r) == Some(Owner)
    ensures OidcOwns(fold, t', key)
  {
    hide Mapped, RowFollows, IsOwner, Matches;
    var w := t.oidcIds[key].user;
    FollowedRow(t.users[u], t'.users[u], RoleGiven(fold, t, r), Source(r.bySaml));
    assert t'.users[u].management == t.users[u].management by { KeepsManagement(t.users[u], t'.users[u],
           RoleGiven(fold, t, r), Source(r.bySaml)); }
    NewEvidenceMatches(t, r, t.oidcIds[key].claims.value);
  }

  lemma KeepsManagement(row: User, row': User, mapped: Option<Role>, source: Management)
    requires RowFollows(row, row', mapped, source)
    ensures row'.management == row.management && row'.password == row.password
  {
  }

  lemma SamlOwnsStill(fold: Folding, t: Tables, t': Tables, r: Request, u: Id, key: (string, string))
    requires r.ByProvider? && Followed(t, r) == Some(u) && Follows(fold, t, t', r, u) && SamlOwns(fold, t, key)
    requires t.users[u].management != Source(r.bySaml) || RoleGiven(fold, t, r) == Some(Owner)
    ensures SamlOwns(fold, t', key)
  {
    hide Mapped, RowFollows, IsOwner;
    var w := t.samlIds[key].user;
    FollowedRow(t.users[u], t'.users[u], RoleGiven(fold, t, r), Source(r.bySaml));
    KeepsManagement(t.users[u], t'.users[u], RoleGiven(fold, t, r), Source(r.bySaml));
  }

  lemma LocalOwnerStill(fold: Folding, t: Tables, t': Tables, r: Request, u: Id)
    requires r.ByProvider? && Followed(t, r) == Some(u) && Follows(fold, t, t', r, u) && LocalOwner(t)
    requires t.users[u].management != Source(r.bySaml) || RoleGiven(fold, t, r) == Some(Owner)
    ensures LocalOwner(t')
  {
    hide Mapped, RowFollows, IsOwner;
    var w :| w in t.users && IsOwner(t.users[w]) && t.users[w].password;
    FollowedRow(t.users[u], t'.users[u], RoleGiven(fold, t, r), Source(r.bySaml));
    KeepsManagement(t.users[u], t'.users[u], RoleGiven(fold, t, r), Source(r.bySaml));
    assert w in t'.users && IsOwner(t'.users[w]) && t'.users[w].password;
  }

  lemma FollowingGrants(fold: Folding, t: Tables, t': Tables, r: Request, u: Id)
    requires r.ByProvider? && Followed(t, r) == Some(u) && Follows(fold, t, t', r, u)
    requires t.users[u].management != Source(r.bySaml) || RoleGiven(fold, t, r) == Some(Owner)
    ensures Grants(fold, t, t')
  {
    hide OidcOwns, SamlOwns, LocalOwner, RowFollows, Mapped;
    forall key | OidcOwns(fold, t, key) ensures OidcOwns(fold, t', key) { OidcOwnsStill(fold, t, t', r, u, key); }
    forall key | SamlOwns(fold, t, key) ensures SamlOwns(fold, t', key) { SamlOwnsStill(fold, t, t', r, u, key); }
    if LocalOwner(t) { LocalOwnerStill(fold, t, t', r, u); }
  }

  lemma FollowingKeepsOwnerExactlyWhen(fold: Folding, t: Tables, t': Tables, r: Request, u: Id)
    requires Linked(t) && UsableOwner(fold, t) && r.ByProvider? && Followed(t, r) == Some(u)
             && Follows(fold, t, t', r, u)
    ensures UsableOwner(fold, t') <==> Spares(fold, t, r)
  {
    hide Linked, UsableOwner, Followed, RowFollows, Mapped, IsOwner, Grants, Without;
    FollowedRow(t.users[u], t'.users[u], RoleGiven(fold, t, r), Source(r.bySaml));
    if t.users[u].management != Source(r.bySaml) || RoleGiven(fold, t, r) == Some(Owner) {
      FollowingGrants(fold, t, t', r, u);
      GrantingKeepsOwner(fold, t, t');
    } else {
      LostOwnerLeavesTheOthers(fold, t, t', r, u);
    }
  }

  // A sign-in that follows no account only adds.

  lemma RotatePreserves(t: Tables, t1: Tables, u: Id, signIn: Kernel.SignIn)
    requires Preserves(t, t1) && u in t1.users
    ensures Preserves(t, Rotate(t1, u, t1.users[u], signIn, false))
  {
    hide Mint;
    var t2 := t1.(next := t1.next + 1, users := t1.users[u := t1.users[u].(etag := t1.next)],
                  sessions := t1.sessions - SessionsOf(t1.sessions, u));
    MintPreserves(t, t2, u, signIn, false);
  }

  lemma OidcUnknownPreserves(fold: Folding, t: Tables, key: (string, string), claims: OidcClaims, how: How)
    requires Numbered(t) && t.oidc.Some? && key !in t.oidcIds
    ensures Preserves(t, OidcUnknown(fold, t, key, claims, how).0)
  {
    hide Mapped, Mint, Rotate, Taken, SameAuthority;
    SamePreserves(t);
    match how
    case ReauthenticateBy(_) =>
    case LinkBy(s) =>
      if Live(t, s) {
        var u := t.sessions[s].user;
        RotatePreserves(t, t.(oidcIds := t.oidcIds[key := OidcIdentity(u, Some(claims))]), u, SignIn.Oidc);
      }
    case Login =>
      var role := Mapped(fold, t.oidc.value.policy, claims.email, claims.groups);
      if role.Some? {
        var row := NewUser(claims.email, role.value, true, ByOidc, false, 0);
        InsertPreserves(t, row);
        MintPreserves(t, Insert(t, row).(oidcIds := t.oidcIds[key := OidcIdentity(t.next, Some(claims))]), t.next,
          SignIn.Oidc, false);
      }
  }

  lemma NewcomerFollows(fold: Folding, t: Tables, u: Id, facts: SamlFacts)
    requires t.saml.Some? && u in t.users && t.users[u].active && t.users[u].authorized
             && t.users[u].management == BySaml
    requires Mapped(fold, t.saml.value.policy, facts.email, facts.groups) == Some(t.users[u].role)
    ensures SamlFollowed(fold, t, u, facts, Login) == (Mint(t, u, SignIn.Saml, false), SignedIn(t.next))
  {
    hide Mapped, Mint, Rotate;
  }

  lemma SamlUnknownPreserves(fold: Folding, t: Tables, key: (string, string), facts: SamlFacts, how: How)
    requires Numbered(t) && t.saml.Some? && key !in t.samlIds && !how.LinkBy?
    ensures Preserves(t, SamlUnknown(fold, t, key, facts, how).0)
  {
    hide Mapped, SamlFollowed, Mint, Taken, SameAuthority;
    SamePreserves(t);
    var role := Mapped(fold, t.saml.value.policy, facts.email, facts.groups);
    if how.Login? && role.Some? {
      var row := NewUser(facts.email, role.value, true, BySaml, false, 0);
      var t1 := Insert(t, row).(samlIds := t.samlIds[key := SamlIdentity(t.next, Some(facts))]);
      InsertPreserves(t, row);
      MintPreserves(t, t1, t.next, SignIn.Saml, false);
      NewcomerFollows(fold, t1, t.next, facts);
    }
  }

  lemma UnfollowedPreserves(fold: Folding, t: Tables, r: Request)
    requires Numbered(t) && Linked(t) && r.ByProvider? && Followed(t, r).None?
    ensures Preserves(t, Step(fold, t, r).0)
  {
    hide Numbered, OidcUnknown, SamlUnknown, SamlFollowed, Apply, Synced, Mapped, Mint, Preserves;
    SamePreserves(t);
    if r.bySaml {
      if t.saml.Some? && SamlKey(t, r) !in t.samlIds && !r.how.LinkBy? {
        SamlUnknownPreserves(fold, t, SamlKey(t, r), SamlEvidence(t, r), r.how);
      }
    } else if t.oidc.Some? && OidcKey(t, r) !in t.oidcIds {
      OidcUnknownPreserves(fold, t, OidcKey(t, r), OidcEvidence(t, r), r.how);
    }
  }

  /** A provider sign-in, whatever its answer, keeps a usable owner if and only if
      it follows no account, or the provider does not manage the account, or
      makes it owner, or a usable owner remains without it. */
  lemma ProviderKeepsOwnerExactlyWhenSpared(fold: Folding, t: Tables, r: Request)
    requires Inv(t) && UsableOwner(fold, t) && r.ByProvider?
    ensures UsableOwner(fold, Step(fold, t, r).0) <==> Spares(fold, t, r)
  {
    hide Numbered, Vouched, OnePerEmail, Current, Linked, UsableOwner, Followed, Follows, Preserves, Step, RoleGiven,
      Without;
    if Followed(t, r).None? {
      UnfollowedPreserves(fold, t, r);
      PreservingKeepsOwner(fold, t, Step(fold, t, r).0);
    } else {
      if r.bySaml { SamlSignInFollows(fold, t, r); } else { OidcSignInFollows(fold, t, r); }
      FollowingKeepsOwnerExactlyWhen(fold, t, Step(fold, t, r).0, r, Followed(t, r).value);
    }
  }

  /** The steps that keep a usable owner, told from the state before them. */
  predicate Keeps(fold: Folding, t: Tables, r: Request) {
    if r.ByProvider? then Spares(fold, t, r)
    else r.Wait? && r.until > t.now ==>
        LocalOwner(t) || OidcOwner(fold, t) || (t.saml.Some? && InDate(t.saml.value, r.until))
  }

  lemma StepKeepsOwnerExactlyWhen(fold: Folding, t: Tables, r: Request)
    requires Inv(t) && UsableOwner(fold, t)
    ensures UsableOwner(fold, Step(fold, t, r).0) <==> Keeps(fold, t, r)
  {
    hide Step, LocalOwner, SamlOwner, OidcOwner, Numbered, Vouched, OnePerEmail, Current, Linked, Spares, InDate;
    if r.ByProvider? {
      ProviderKeepsOwnerExactlyWhenSpared(fold, t, r);
    } else if !r.Wait? {
      StepKeepsOwner(fold, t, r);
    } else if r.until > t.now {
      SamlOwnerHasConfig(fold, t);
      WaitingKeepsOwnerExactlyWhenInDate(fold, t, r.until);
    } else {
      StandingStill(fold, t, r.until);
    }
  }

  /** Every provider sign-in of the run spares a usable owner, and whenever the
      clock moves, a SAML owner who is the only one still has metadata in date. */
  predicate Calm(fold: Folding, t: Tables, run: seq<Request>)
    decreases |run|
  {
    run == [] || (Keeps(fold, t, run[0]) && Calm(fold, Step(fold, t, run[0]).0, run[1..]))
  }

  predicate UsableThroughout(fold: Folding, t: Tables, run: seq<Request>)
    decreases |run|
  {
    UsableOwner(fold, t) && (run == [] || UsableThroughout(fold, Step(fold, t, run[0]).0, run[1..]))
  }

  /** Once there is a usable owner, a run has one throughout if and only if it is
      calm: no administrative request can leave none. */
  lemma {:induction false} OwnerStaysExactlyInCalmRuns(fold: Folding, t: Tables, run: seq<Request>)
    requires Inv(t) && UsableOwner(fold, t)
    ensures UsableThroughout(fold, t, run) <==> Calm(fold, t, run)
    decreases |run|
  {
    hide Step, UsableOwner, Inv, Keeps;
    if run != [] {
      StepKeepsInv(fold, t, run[0]);
      StepKeepsOwnerExactlyWhen(fold, t, run[0]);
      if Keeps(fold, t, run[0]) {
        OwnerStaysExactlyInCalmRuns(fold, Step(fold, t, run[0]).0, run[1..]);
      }
    }
  }

  lemma SamlOwnerHasConfig(fold: Folding, t: Tables)
    ensures SamlOwner(fold, t) ==> t.saml.Some?
  {
  }

  lemma StandingStill(fold: Folding, t: Tables, until: Time)
    requires until <= t.now
    ensures Step(fold, t, Wait(until)).0 == t
  {
  }

  /** An installation whose one owner signs in through one provider. */
  function Alone(saml: bool, management: Management): Tables {
    var policy := Policy([], [Mapping("owners", Owner)], None);
    var user := User("a@example.org", Owner, true, true, Global, management, false, 1, 1);
    var claims := OidcClaims("client", ["openid"], "email", "groups", "a@example.org", ["owners"]);
    var facts := SamlFacts("mail", "groups", "a@example.org", ["owners"]);
    Tables(
      0, 2, true, true, true, map[0 := user], map[], map[],
      Some(OidcConfig(true, "issuer", "client", true, ["openid"], "email", "groups", policy)), Some(7),
      Some(SamlConfig(true, "entity", "mail", "groups", None, [(0, 10)], policy)),
      if saml then map[] else map[("issuer", "s") := OidcIdentity(0, Some(claims))],
      if saml then map[("entity", "s") := SamlIdentity(0, Some(facts))] else map[],
      map[])
  }

  lemma AloneIsUsable(fold: Folding, saml: bool, management: Management)
    requires management == if saml then BySaml else ByOidc
    ensures Inv(Alone(saml, management)) && UsableOwner(fold, Alone(saml, management))
  {
    var t := Alone(saml, management);
    var policy := Policy([], [Mapping("owners", Owner)], None);
    assert policy.groups[..0] == [];
    assert ByGroup(policy.groups[..0], ["owners"]) == None;
    assert ByGroup(policy.groups, ["owners"]) == Some(Owner);
    assert Mapped(fold, policy, "a@example.org", ["owners"]) == Some(Owner);
    if saml {
      assert InDate(t.saml.value, 0) by { assert t.saml.value.certificates[0] == (0, 10); }
      assert ("entity", "s") in t.samlIds && SamlOwns(fold, t, ("entity", "s"));
    } else {
      assert ("issuer", "s") in t.oidcIds && OidcOwns(fold, t, ("issuer", "s"));
    }
  }

  lemma WithoutOwnersNoneIsUsable(fold: Folding, t: Tables)
    requires forall u :: u in t.users ==> !IsOwner(t.users[u])
    ensures !UsableOwner(fold, t)
  {
    hide InDate, SamlSignInRole, OidcSignInRole;
  }

  lemma AloneThroughSaml(fold: Folding)
    ensures var t := Alone(true, BySaml); !LocalOwner(t) && !OidcOwner(fold, t) && !InDate(t.saml.value, 11)
  {
    hide SamlSignInRole, OidcSignInRole;
  }

  /** The clock alone can take the last usable owner away: here the provider's
      only certificate runs out. */
  lemma ClockCanTakeTheOwner(fold: Folding)
    ensures var t := Alone(true, BySaml);
            Inv(t) && UsableOwner(fold, t) && !UsableOwner(fold, Step(fold, t, Wait(11)).0)
  {
    hide Inv, UsableOwner, LocalOwner, OidcOwner, InDate, Step;
    AloneIsUsable(fold, true, BySaml);
    AloneThroughSaml(fold);
    assert Alone(true, BySaml).now == 0;
    WaitingKeepsOwnerExactlyWhenInDate(fold, Alone(true, BySaml), 11);
  }

  lemma UnmappedIsDenied(fold: Folding, t: Tables, subject: string, email: string)
    requires t.oidc.Some? && t.oidc.value.enabled && (t.oidc.value.issuer, subject) in t.oidcIds
    requires var u := t.oidcIds[(t.oidc.value.issuer, subject)].user;
             u in t.users && t.users[u].management == ByOidc && t.users[u].authorized
    requires Mapped(fold, t.oidc.value.policy, email, []).None?
    ensures var (t', y) := OidcSignIn(fold, t, subject, email, [], Login);
            var u := t.oidcIds[(t.oidc.value.issuer, subject)].user;
            y == Denied && t'.users == t.users[u := t.users[u].(authorized := false, etag := t.next)]
  {
    hide Mapped, Mint, SessionsOf, Retired;
  }

  lemma AloneUnmapped(fold: Folding)
    ensures Mapped(fold, Alone(false, ByOidc).oidc.value.policy, "a@example.org", []).None?
  {
    var policy := Policy([], [Mapping("owners", Owner)], None);
    assert policy.groups[..0] == [];
    assert ByGroup(policy.groups, []) == None;
  }

  lemma AloneThroughOidc()
    ensures var t := Alone(false, ByOidc);
            && t.oidc.Some? && t.oidc.value.enabled && (t.oidc.value.issuer, "s") in t.oidcIds
               && t.oidcIds[(t.oidc.value.issuer, "s")].user == 0
            && t.users.Keys == {0} && t.users[0].management == ByOidc && t.users[0].authorized
  {
  }

  /** So can the provider: here it stops asserting the group that maps to owner,
      and the loss commits although the sign-in is refused. */
  lemma ProviderCanTakeTheOwner(fold: Folding)
    ensures var t := Alone(false, ByOidc);
            var (t', y) := OidcSignIn(fold, t, "s", "a@example.org", [], Login);
            Inv(t) && UsableOwner(fold, t) && y == Denied && !UsableOwner(fold, t')
  {
    hide Inv, UsableOwner, OidcSignIn, Alone, Mapped;
    AloneIsUsable(fold, false, ByOidc);
    AloneUnmapped(fold);
    AloneThroughOidc();
    UnmappedIsDenied(fold, Alone(false, ByOidc), "s", "a@example.org");
    WithoutOwnersNoneIsUsable(fold, OidcSignIn(fold, Alone(false, ByOidc), "s", "a@example.org", [], Login).0);
  }
}
