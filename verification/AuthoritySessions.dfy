/** Whose sessions a request can give out, and whose it ends. */
module AuthoritySessions {
  import opened Common
  import opened Kernel
  import opened RoleMapping
  import opened Authority
  import opened AuthorityProofs
  import opened UsableOwners
  import opened Grants

  /** Sessions go or stay as they were, but for new ones of `u`. */
  predicate SessionsFor(t: Tables, t': Tables, u: Id, signIn: Kernel.SignIn) {
    forall s :: s in t'.sessions ==>
      || (s in t.sessions && t'.sessions[s] == t.sessions[s])
      || (s >= t.next && t'.sessions[s].user == u && t'.sessions[s].signIn == signIn
          && t'.sessions[s].expires == t.now + 86400)
  }

  predicate NoNewSession(t: Tables, t': Tables) {
    forall s :: s in t'.sessions ==> s in t.sessions && t'.sessions[s] == t.sessions[s]
  }

  lemma MintFor(t: Tables, u: Id, signIn: Kernel.SignIn, mfa: bool)
    requires u in t.users
    ensures SessionsFor(t, Mint(t, u, signIn, mfa), u, signIn)
  {
    hide Surplus, SessionsOf;
  }

  lemma RotateFor(t: Tables, u: Id, row: User, signIn: Kernel.SignIn, mfa: bool)
    ensures SessionsFor(t, Rotate(t, u, row, signIn, mfa), u, signIn)
  {
    hide Surplus, SessionsOf;
  }

  lemma NoneThenFor(t: Tables, t1: Tables, t2: Tables, u: Id, signIn: Kernel.SignIn)
    requires NoNewSession(t, t1) && t.next <= t1.next && t1.now == t.now && SessionsFor(t1, t2, u, signIn)
    ensures SessionsFor(t, t2, u, signIn)
  {
  }

  lemma NoneIsFor(t: Tables, t': Tables, u: Id, signIn: Kernel.SignIn)
    requires NoNewSession(t, t')
    ensures SessionsFor(t, t', u, signIn)
  {
  }

  lemma ApplyAddsNone(t: Tables, u: Id, sync: Sync)
    requires u in t.users
    ensures var t' := Apply(t, u, sync); NoNewSession(t, t') && t.next <= t'.next && t'.now == t.now && u in t'.users
  {
    hide SessionsOf, Retired;
  }

  datatype Recipient = Recipient(user: Id, signIn: Kernel.SignIn)

  /** Who a request can give a session to: the user it makes, the user whose
      password was given, the user of the session it came with, or the account of
      the identity a provider vouches for. */
  function RecipientOf(t: Tables, r: Request): Option<Recipient> {
    match r
    case SetUp(_) => Some(Recipient(t.next, Local))
    case Accept(_, _) => Some(Recipient(t.next, Local))
    case LogIn(u, _) => Some(Recipient(u, Local))
    case Password(s) => if s in t.sessions then Some(Recipient(t.sessions[s].user, t.sessions[s].signIn)) else None
    case DropOidc(s, _) => if s in t.sessions then Some(Recipient(t.sessions[s].user, t.sessions[s].signIn)) else None
    case DropSaml(s, _) => if s in t.sessions then Some(Recipient(t.sessions[s].user, t.sessions[s].signIn)) else None
    case ByProvider(bySaml, subject, _, _, how) =>
      var signIn := if bySaml then SignIn.Saml else SignIn.Oidc;
      (match how
       case LinkBy(s) => if s in t.sessions then Some(Recipient(t.sessions[s].user, signIn)) else None
       case ReauthenticateBy(_) => None
       case Login => Some(Recipient(AccountOf(t, bySaml, subject), signIn)))
    case _ => None
  }

  /** The account a login is for: the one the identity is linked to, or a new one. */
  function AccountOf(t: Tables, bySaml: bool, subject: string): Id {
    if bySaml then
      if t.saml.Some? && (t.saml.value.entity, subject) in t.samlIds then t.samlIds[(t.saml.value.entity, subject)].user
      else t.next
    else if t.oidc.Some? && (t.oidc.value.issuer, subject) in t.oidcIds then
      t.oidcIds[(t.oidc.value.issuer, subject)].user
    else t.next
  }

  predicate GivenOnly(t: Tables, r: Request, t': Tables) {
    if RecipientOf(t, r).None? then NoNewSession(t, t')
    else SessionsFor(t, t', RecipientOf(t, r).value.user, RecipientOf(t, r).value.signIn)
  }

  lemma SameGivesNone(t: Tables, r: Request)
    ensures GivenOnly(t, r, t)
  {
  }

  lemma EnteringGives(fold: Folding, t: Tables, r: Request)
    requires r.SetUp? || r.Accept? || r.LogIn?
    ensures GivenOnly(t, r, Step(fold, t, r).0)
  {
    hide Mint, Taken, SessionsFor;
    SameGivesNone(t, r);
    assert NoNewSession(t, t);
    match r
    case SetUp(email) =>
      var t1 := Insert(t, NewUser(email, Owner, true, ByHand, true, 0)).(complete := true, localLogin := true);
      MintFor(t1, t.next, Local, false);
      NoneThenFor(t, t1, Mint(t1, t.next, Local, false), t.next, Local);
    case Accept(i, _) =>
      if i in t.invitations {
        var inv := t.invitations[i];
        var t0 := Insert(t, NewUser(inv.email, inv.role, true, ByHand, true, 0));
        var t1 := t0.(invitations := t.invitations[i := inv.(accepted := true)]);
        MintFor(t1, t.next, Local, false);
        NoneThenFor(t, t1, Mint(t1, t.next, Local, false), t.next, Local);
        NoneIsFor(t, t1, t.next, Local);
      }
    case LogIn(u, _) => if u in t.users { MintFor(t, u, Local, false); }
  }

  lemma RotatingGives(fold: Folding, t: Tables, r: Request)
    requires r.Password? || r.DropOidc? || r.DropSaml?
    ensures GivenOnly(t, r, Step(fold, t, r).0)
  {
    hide Rotate, UsableOwner, OidcPath, SamlPath, SamlLinked, LocalPath, SessionsFor;
    SameGivesNone(t, r);
    if Live(t, r.session) {
      var u, s := t.sessions[r.session].user, t.sessions[r.session];
      var t1 := if r.DropOidc? then t.(oidcIds := t.oidcIds - {r.key})
                else if r.DropSaml? then t.(samlIds := t.samlIds - {r.key}) else t;
      var row := if r.Password? then t.users[u].(password := true) else t.users[u];
      RotateFor(t1, u, row, s.signIn, s.mfa);
      NoneThenFor(t, t1, Rotate(t1, u, row, s.signIn, s.mfa), u, s.signIn);
    }
  }

  lemma SamlFollowedGives(fold: Folding, t: Tables, u: Id, facts: SamlFacts, how: How)
    requires t.saml.Some? && u in t.users
    ensures var t' := SamlFollowed(fold, t, u, facts, how).0;
            SessionsFor(t, t', u, SignIn.Saml) && (how.ReauthenticateBy? ==> NoNewSession(t, t'))
  {
    hide Mapped, Synced, Apply, Mint, Rotate, SessionsFor;
    var sync := Synced(t.users[u], Mapped(fold, t.saml.value.policy, facts.email, facts.groups), BySaml);
    var t1 := Apply(t, u, sync);
    ApplyAddsNone(t, u, sync);
    NoneIsFor(t, t, u, SignIn.Saml);
    NoneIsFor(t, t1, u, SignIn.Saml);
    RotateFor(t1, u, t1.users[u], SignIn.Saml, false);
    NoneThenFor(t, t1, Rotate(t1, u, t1.users[u], SignIn.Saml, false), u, SignIn.Saml);
    MintFor(t1, u, SignIn.Saml, false);
    NoneThenFor(t, t1, Mint(t1, u, SignIn.Saml, false), u, SignIn.Saml);
  }

  lemma SamlLinkedGives(fold: Folding, t: Tables, key: (string, string), u: Id, facts: SamlFacts, how: How)
    requires t.saml.Some? && u in t.users
    ensures var t' := Committed(t,
            SamlFollowed(fold, t.(samlIds := t.samlIds[key := SamlIdentity(u, Some(facts))]), u, facts, how)).0;
            SessionsFor(t, t', u, SignIn.Saml) && (how.ReauthenticateBy? ==> NoNewSession(t, t'))
  {
    hide SamlFollowed, SessionsFor;
    var t1 := t.(samlIds := t.samlIds[key := SamlIdentity(u, Some(facts))]);
    NoneIsFor(t, t, u, SignIn.Saml);
    SamlFollowedGives(fold, t1, u, facts, how);
    NoneThenFor(t, t1, SamlFollowed(fold, t1, u, facts, how).0, u, SignIn.Saml);
  }

  lemma SamlNewcomerGives(fold: Folding, t: Tables, key: (string, string), row: User, facts: SamlFacts)
    requires t.saml.Some?
    ensures var t1 := Insert(t, row).(samlIds := t.samlIds[key := SamlIdentity(t.next, Some(facts))]);
            SessionsFor(t, Committed(t, SamlFollowed(fold, t1, t.next, facts, Login)).0, t.next, SignIn.Saml)
  {
    hide SamlFollowed, SessionsFor;
    var t1 := Insert(t, row).(samlIds := t.samlIds[key := SamlIdentity(t.next, Some(facts))]);
    NoneIsFor(t, t, t.next, SignIn.Saml);
    SamlFollowedGives(fold, t1, t.next, facts, Login);
    NoneThenFor(t, t1, SamlFollowed(fold, t1, t.next, facts, Login).0, t.next, SignIn.Saml);
  }

  lemma SamlUnknownGives(fold: Folding, t: Tables, key: (string, string), facts: SamlFacts, how: How)
    requires t.saml.Some?
    ensures var t' := SamlUnknown(fold, t, key, facts, how).0;
            match how
            case Login => SessionsFor(t, t', t.next, SignIn.Saml)
            case LinkBy(s) => if Live(t, s) then SessionsFor(t, t', t.sessions[s].user, SignIn.Saml) else t' == t
            case ReauthenticateBy(_) => t' == t
  {
    hide SamlFollowed, Mapped, Taken, SessionsFor, Committed, Insert;
    NoneIsFor(t, t, t.next, SignIn.Saml);
    match how
    case ReauthenticateBy(_) =>
    case LinkBy(s) => if Live(t, s) { SamlLinkedGives(fold, t, key, t.sessions[s].user, facts, how); }
    case Login =>
      var role := Mapped(fold, t.saml.value.policy, facts.email, facts.groups);
      if role.Some? {
        SamlNewcomerGives(fold, t, key, NewUser(facts.email, role.value, true, BySaml, false, 0), facts);
      }
  }

  lemma SamlGives(fold: Folding, t: Tables, r: Request)
    requires Linked(t) && r.ByProvider? && r.bySaml && t.saml.Some?
    ensures GivenOnly(t, r, Step(fold, t, r).0)
  {
    hide SamlFollowed, SamlUnknown, SessionsFor, Committed;
    var key, facts := SamlKey(t, r), SamlEvidence(t, r);
    SameGivesNone(t, r);
    if key in t.samlIds {
      SamlLinkedGives(fold, t, key, t.samlIds[key].user, facts, r.how);
    } else {
      SamlUnknownGives(fold, t, key, facts, r.how);
    }
  }

  lemma OidcKnownGives(fold: Folding, t: Tables, key: (string, string), claims: OidcClaims, how: How)
    requires t.oidc.Some? && key in t.oidcIds && t.oidcIds[key].user in t.users
    ensures var t' := OidcKnown(fold, t, key, claims, how).0;
            SessionsFor(t, t', t.oidcIds[key].user, SignIn.Oidc) && (!how.Login? ==> NoNewSession(t, t'))
  {
    hide Mapped, Synced, Apply, Mint, SessionsFor;
    var u := t.oidcIds[key].user;
    var sync := Synced(t.users[u], Mapped(fold, t.oidc.value.policy, claims.email, claims.groups), ByOidc);
    var t0 := t.(oidcIds := t.oidcIds[key := OidcIdentity(u, Some(claims))]);
    var t1 := Apply(t0, u, sync);
    ApplyAddsNone(t0, u, sync);
    NoneIsFor(t, t, u, SignIn.Oidc);
    NoneIsFor(t, t1, u, SignIn.Oidc);
    MintFor(t1, u, SignIn.Oidc, false);
    NoneThenFor(t, t1, Mint(t1, u, SignIn.Oidc, false), u, SignIn.Oidc);
  }

  lemma OidcUnknownGives(fold: Folding, t: Tables, key: (string, string), claims: OidcClaims, how: How)
    requires t.oidc.Some?
    ensures var t' := OidcUnknown(fold, t, key, claims, how).0;
            match how
            case Login => SessionsFor(t, t', t.next, SignIn.Oidc)
            case LinkBy(s) => if Live(t, s) then SessionsFor(t, t', t.sessions[s].user, SignIn.Oidc) else t' == t
            case ReauthenticateBy(_) => t' == t
  {
    hide Mapped, Taken, Mint, Rotate, SessionsFor;
    NoneIsFor(t, t, t.next, SignIn.Oidc);
    match how
    case ReauthenticateBy(_) =>
    case LinkBy(s) =>
      if Live(t, s) {
        var u := t.sessions[s].user;
        var t1 := t.(oidcIds := t.oidcIds[key := OidcIdentity(u, Some(claims))]);
        RotateFor(t1, u, t.users[u], SignIn.Oidc, false);
        NoneThenFor(t, t1, Rotate(t1, u, t.users[u], SignIn.Oidc, false), u, SignIn.Oidc);
      }
    case Login =>
      var role := Mapped(fold, t.oidc.value.policy, claims.email, claims.groups);
      if role.Some? {
        var t0 := Insert(t, NewUser(claims.email, role.value, true, ByOidc, false, 0));
        var t1 := t0.(oidcIds := t.oidcIds[key := OidcIdentity(t.next, Some(claims))]);
        MintFor(t1, t.next, SignIn.Oidc, false);
        NoneThenFor(t, t1, Mint(t1, t.next, SignIn.Oidc, false), t.next, SignIn.Oidc);
      }
  }

  lemma OidcGives(fold: Folding, t: Tables, r: Request)
    requires Linked(t) && r.ByProvider? && !r.bySaml && t.oidc.Some?
    ensures GivenOnly(t, r, Step(fold, t, r).0)
  {
    hide OidcKnown, OidcUnknown, SessionsFor;
    SameGivesNone(t, r);
    if OidcKey(t, r) in t.oidcIds {
      OidcKnownGives(fold, t, OidcKey(t, r), OidcEvidence(t, r), r.how);
      if r.how.LinkBy? && r.how.session in t.sessions {
        NoneIsFor(t, OidcKnown(fold, t, OidcKey(t, r), OidcEvidence(t, r), r.how).0, t.sessions[r.how.session].user,
          SignIn.Oidc);
      }
    } else {
      OidcUnknownGives(fold, t, OidcKey(t, r), OidcEvidence(t, r), r.how);
    }
  }

  lemma ReassignAddsNone(t: Tables, u: Id, row: User, retire: bool)
    ensures NoNewSession(t, Reassign(t, u, row, retire))
  {
  }

  lemma ProvisionGivesNone(fold: Folding, t: Tables, key: (string, string), email: string, role: Role, active: bool)
    ensures NoNewSession(t, ProvisionUser(fold, t, key, email, role, active).0)
  {
    hide UsableOwner, Taken, Reassign;
    if key in t.provisioned && t.provisioned[key] in t.users {
      var u := t.provisioned[key];
      ReassignAddsNone(t, u, t.users[u].(email := email, role := role, active := active), !active || role != Owner);
    }
  }

  lemma ChangingGivesNone(fold: Folding, t: Tables, r: Request)
    requires r.Update? || r.Provision? || r.Deprovision? || r.Recover?
    ensures NoNewSession(t, Step(fold, t, r).0)
  {
    hide UsableOwner, Taken, Changed, Reassign, ProvisionUser;
    match r
    case Update(_, u, _, c) =>
      if u in t.users {
        var row := Changed(t.users[u], c);
        ReassignAddsNone(t, u, row, !row.active || row.role != Owner || row.scope != Global);
      }
    case Provision(key, email, role, active) => ProvisionGivesNone(fold, t, key, email, role, active);
    case Deprovision(key) =>
      if key in t.provisioned && t.provisioned[key] in t.users {
        ReassignAddsNone(t, t.provisioned[key], t.users[t.provisioned[key]].(active := false), true);
      }
    case Recover(u) => if u in t.users { ReassignAddsNone(t, u, t.users[u].(password := true), false); }
  }

  lemma PutSamlGivesNone(fold: Folding, t: Tables, c: SamlConfig)
    ensures NoNewSession(t, PutSaml(fold, t, c).0)
  {
    hide UsableOwner, Validated, InDate, WithoutFacts;
  }

  lemma ConfiguringGivesNone(fold: Folding, t: Tables, r: Request)
    requires r.ConfigureOidc? || r.ConfigureSaml?
    ensures NoNewSession(t, Step(fold, t, r).0)
  {
    hide UsableOwner, Validated, WithoutClaims, NewSecret, PutSaml;
    if r.ConfigureSaml? {
      PutSamlGivesNone(fold, t, r.saml);
    }
  }

  lemma OthersGiveNone(fold: Folding, t: Tables, r: Request)
    requires RecipientOf(t, r).None? && !r.ByProvider? && !r.Password? && !r.DropOidc? && !r.DropSaml?
    ensures NoNewSession(t, Step(fold, t, r).0)
  {
    if r.Update? || r.Provision? || r.Deprovision? || r.Recover? {
      hide Step;
      ChangingGivesNone(fold, t, r);
    } else if r.ConfigureOidc? || r.ConfigureSaml? {
      hide Step;
      ConfiguringGivesNone(fold, t, r);
    } else {
      hide UsableOwner, Taken;
    }
  }

  /** Every new session of a step, whatever its answer, is one of the recipient
      that the request stands for, and good for a day. */
  lemma SessionsHaveTheirReason(fold: Folding, t: Tables, r: Request)
    requires Linked(t)
    ensures GivenOnly(t, r, Step(fold, t, r).0)
  {
    if r.SetUp? || r.Accept? || r.LogIn? {
      EnteringGives(fold, t, r);
    } else if r.Password? || r.DropOidc? || r.DropSaml? {
      RotatingGives(fold, t, r);
    } else if r.ByProvider? {
      SameGivesNone(t, r);
      if r.bySaml && t.saml.Some? {
        SamlGives(fold, t, r);
      } else if !r.bySaml && t.oidc.Some? {
        OidcGives(fold, t, r);
      }
    } else {
      hide Step;
      OthersGiveNone(fold, t, r);
    }
  }

  /** Whatever runs later, a session authenticates the user it was made for, and
      for less than a day. */
  lemma SessionLivesADay(fold: Folding, t: Tables, run: seq<Request>, s: Id, made: Time)
    requires Inv(t) && s in t.sessions && t.sessions[s].expires <= made + 86400
    ensures var t' := After(fold, t, run);
            Live(t', s) ==> t'.now < made + 86400 && t'.sessions[s] == t.sessions[s]
  {
    hide Step, Vouched, OnePerEmail, Current, Linked;
    RunIsLater(fold, t, run);
  }

  /** Signing out ends that session, and a sweep only sessions that are over;
      setting a password or unlinking leaves the user one session, and recovering
      a password none. */
  lemma SessionsEndAsAsked(fold: Folding, t: Tables, r: Request)
    requires Inv(t)
    ensures var (t', y) := Step(fold, t, r);
            match r
            case LogOut(s) => t'.sessions == t.sessions - {s}
            case Sweep(gone) => forall s ::
                s in t.sessions && (s !in gone || t.now < t.sessions[s].expires) ==> s in t'.sessions
            case Recover(u) => y.Done? ==> forall s :: s in t'.sessions ==> t'.sessions[s].user != u
            case Password(s) => y.SignedIn? ==> OneSessionOf(t', t.sessions[s].user, y.session)
            case DropOidc(s, _) => y.SignedIn? ==> s in t.sessions && OneSessionOf(t', t.sessions[s].user, y.session)
            case DropSaml(s, _) => y.SignedIn? ==> s in t.sessions && OneSessionOf(t', t.sessions[s].user, y.session)
            case _ => true
  {
    hide Vouched, OnePerEmail, Current, Linked, UsableOwner, OidcPath, SamlPath, SamlLinked, LocalPath, Rotate;
    if (r.Password? || r.DropOidc? || r.DropSaml?) && Live(t, r.session) {
      var u, s := t.sessions[r.session].user, t.sessions[r.session];
      RotateLeavesOne(t, u, t.users[u].(password := true), s.signIn, s.mfa);
      if r.DropOidc? {
        RotateLeavesOne(t.(oidcIds := t.oidcIds - {r.key}), u, t.users[u], s.signIn, s.mfa);
      } else if r.DropSaml? {
        RotateLeavesOne(t.(samlIds := t.samlIds - {r.key}), u, t.users[u], s.signIn, s.mfa);
      }
    }
  }

  predicate OneSessionOf(t: Tables, u: Id, s: Id) {
    s in t.sessions && t.sessions[s].user == u && forall x :: x in t.sessions && t.sessions[x].user == u ==> x == s
  }

  lemma RotateLeavesOne(t: Tables, u: Id, row: User, signIn: Kernel.SignIn, mfa: bool)
    ensures OneSessionOf(Rotate(t, u, row, signIn, mfa), u, t.next + 1)
  {
  }
}
