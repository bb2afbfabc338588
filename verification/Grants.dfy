/** Where authority comes from: what each handler changes of users, invitations,
    identities and sessions, told on the rows, and what follows over runs. */
module Grants {
  import opened Common
  import opened Kernel
  import opened RoleMapping
  import opened Authority
  import opened AuthorityProofs
  import opened UsableOwners

  predicate Free(users: map<Id, User>, email: string) {
    forall u :: u in users ==> users[u].email != email
  }

  /** The session is a new one of `u`, good for a day, and the only new one. */
  predicate OneNewSession(t: Tables, t': Tables, s: Id, u: Id) {
    && s !in t.sessions && s in t'.sessions && t'.sessions[s].user == u && t'.sessions[s].expires == t.now + 86400
    && forall x :: x in t'.sessions && x != s ==> x in t.sessions && t'.sessions[x] == t.sessions[x]
  }

  lemma MintMeans(t: Tables, u: Id, signIn: Kernel.SignIn, mfa: bool)
    requires Numbered(t) && u in t.users
    ensures var t' := Mint(t, u, signIn, mfa);
            OneNewSession(t, t', t.next, u) && t' == t.(next := t.next + 1, sessions := t'.sessions)
  {
  }

  // Invitations.

  predicate Acceptable(t: Tables, i: Id) {
    && i in t.invitations && !t.invitations[i].accepted && !t.invitations[i].revoked
    && t.now < t.invitations[i].expires && Free(t.users, t.invitations[i].email)
  }

  /** An invitation is accepted if and only if local sign-in is on, the invitation
      is neither accepted nor revoked nor expired, and nobody has its email. Then
      exactly one user is new, with the invitation's email and role; that
      invitation alone changes, to accepted; and a session in the reply is the
      new user's and the only new one. */
  lemma AcceptanceMeans(fold: Folding, t: Tables, i: Id, mint: bool)
    requires Inv(t)
    ensures var (t', y) := Step(fold, t, Accept(i, mint));
            && (!y.Refused? <==> t.switch && t.localLogin && Acceptable(t, i)) && (y.Refused? ==> t' == t)
            && (!y.Refused? ==>
                  var inv, u := t.invitations[i], t.next;
                  && u !in t.users && u in t'.users
                  && t'.users == t.users[u :=
                       User(inv.email, inv.role, true, true, Global, ByHand, true, t'.users[u].etag,
                         t'.users[u].mfaRevision)]
                  && t'.invitations == t.invitations[i := inv.(accepted := true)]
                  && y.SignedIn? == mint
                     && (if mint then OneNewSession(t, t', y.session, u) else t'.sessions == t.sessions))
  {
    hide Vouched, OnePerEmail, Current, Linked, Surplus;
  }

  /** An invitation that can never be accepted again. */
  predicate Spent(t: Tables, i: Id) {
    && i < t.next
    && (i in t.invitations ==>
         t.invitations[i].accepted || t.invitations[i].revoked || t.invitations[i].expires <= t.now)
  }

  /** What every step leaves of what was there: an invitation stays and changes
      only to accepted or revoked, a session goes or stays as it was, no user goes, and
      whatever is new has a new identifier. */
  predicate Later(t: Tables, t': Tables) {
    && t.next <= t'.next && t.now <= t'.now && (t.complete ==> t'.complete)
    && (forall u :: u in t.users ==> u in t'.users) && (forall u :: u in t'.users ==> u in t.users || u >= t.next)
    && (forall s :: s in t'.sessions ==> (s in t.sessions && t'.sessions[s] == t.sessions[s]) || s >= t.next)
    && (forall i :: i in t.invitations ==> i in t'.invitations)
    && (forall i :: i in t'.invitations ==>
          if i in t.invitations then InvitationFollows(t.invitations[i], t'.invitations[i]) else i >= t.next)
  }

  predicate InvitationFollows(i: Invitation, i': Invitation) {
    && i' == i.(accepted := i'.accepted, revoked := i'.revoked)
    && (i.accepted ==> i'.accepted) && (i.revoked ==> i'.revoked)
  }

  lemma LaterSame(t: Tables)
    ensures Later(t, t)
  {
  }

  lemma LaterThen(t: Tables, t1: Tables, t2: Tables)
    requires Later(t, t1) && Later(t1, t2)
    ensures Later(t, t2)
  {
  }

  lemma ReassignLater(t: Tables, u: Id, row: User, retire: bool)
    requires u in t.users
    ensures Later(t, Reassign(t, u, row, retire)) && u in Reassign(t, u, row, retire).users
  {
  }

  lemma InsertLater(t: Tables, row: User)
    ensures Later(t, Insert(t, row))
  {
  }

  lemma MintLater(t: Tables, u: Id, signIn: Kernel.SignIn, mfa: bool)
    requires u in t.users
    ensures Later(t, Mint(t, u, signIn, mfa))
  {
    hide Surplus, SessionsOf;
  }

  lemma RotateLater(t: Tables, u: Id, row: User, signIn: Kernel.SignIn, mfa: bool)
    requires u in t.users
    ensures Later(t, Rotate(t, u, row, signIn, mfa))
  {
    hide Mint, SessionsOf, InvitationFollows;
    var t1 := t.(next := t.next + 1, users := t.users[u := row.(etag := t.next)],
                 sessions := t.sessions - SessionsOf(t.sessions, u));
    assert Later(t, t1) by { ReassignLater(t, u, row, false); assert t1 == Reassign(t, u, row, false); }
    MintLater(t1, u, signIn, mfa);
    LaterThen(t, t1, Mint(t1, u, signIn, mfa));
  }

  /** Configuration, identities and evidence are beside the point. */
  lemma BesideLater(t: Tables, t': Tables)
    requires t'.next == t.next && t'.now == t.now && t'.users == t.users && t'.invitations == t.invitations
    requires (t.complete ==> t'.complete) && forall s ::
               s in t'.sessions ==> s in t.sessions && t'.sessions[s] == t.sessions[s]
    ensures Later(t, t')
  {
  }

  lemma ApplyLater(t: Tables, u: Id, sync: Sync)
    requires u in t.users
    ensures Later(t, Apply(t, u, sync)) && u in Apply(t, u, sync).users
  {
    hide Reassign, Later;
    var row := t.users[u].(role := sync.role, authorized := sync.authorized);
    LaterSame(t);
    ReassignLater(t, u, row, !sync.allowed || sync.role != Owner);
  }

  lemma SamlFollowedLater(fold: Folding, t: Tables, u: Id, facts: SamlFacts, how: How)
    requires t.saml.Some? && u in t.users
    ensures Later(t, SamlFollowed(fold, t, u, facts, how).0)
  {
    hide Mapped, Synced, Apply, Mint, Rotate, Later;
    var sync := Synced(t.users[u], Mapped(fold, t.saml.value.policy, facts.email, facts.groups), BySaml);
    var t1 := Apply(t, u, sync);
    LaterSame(t);
    ApplyLater(t, u, sync);
    RotateLater(t1, u, t1.users[u], SignIn.Saml, false);
    LaterThen(t, t1, Rotate(t1, u, t1.users[u], SignIn.Saml, false));
    MintLater(t1, u, SignIn.Saml, false);
    LaterThen(t, t1, Mint(t1, u, SignIn.Saml, false));
  }

  lemma SamlLinkedLater(fold: Folding, t: Tables, key: (string, string), u: Id, facts: SamlFacts, how: How)
    requires t.saml.Some? && u in t.users
    ensures Later(t, SamlFollowed(fold, t.(samlIds := t.samlIds[key := SamlIdentity(u, Some(facts))]), u, facts, how).0)
  {
    hide SamlFollowed, Later;
    var t1 := t.(samlIds := t.samlIds[key := SamlIdentity(u, Some(facts))]);
    BesideLater(t, t1);
    SamlFollowedLater(fold, t1, u, facts, how);
    LaterThen(t, t1, SamlFollowed(fold, t1, u, facts, how).0);
  }

  lemma SamlUnknownLater(fold: Folding, t: Tables, key: (string, string), facts: SamlFacts, how: How)
    requires t.saml.Some?
    ensures Later(t, SamlUnknown(fold, t, key, facts, how).0)
  {
    hide SamlFollowed, Later, Mapped, Taken;
    LaterSame(t);
    match how
    case ReauthenticateBy(_) =>
    case LinkBy(s) => if Live(t, s) { SamlLinkedLater(fold, t, key, t.sessions[s].user, facts, how); }
    case Login =>
      var role := Mapped(fold, t.saml.value.policy, facts.email, facts.groups);
      if role.Some? {
        var t0 := Insert(t, NewUser(facts.email, role.value, true, BySaml, false, 0));
        InsertLater(t, NewUser(facts.email, role.value, true, BySaml, false, 0));
        SamlLinkedLater(fold, t0, key, t.next, facts, how);
        var t1 := t0.(samlIds := t.samlIds[key := SamlIdentity(t.next, Some(facts))]);
        LaterThen(t, t0, SamlFollowed(fold, t1, t.next, facts, how).0);
      }
  }

  lemma OidcKnownLater(fold: Folding, t: Tables, key: (string, string), claims: OidcClaims, how: How)
    requires t.oidc.Some? && key in t.oidcIds && t.oidcIds[key].user in t.users
    ensures Later(t, OidcKnown(fold, t, key, claims, how).0)
  {
    hide Mapped, Synced, Apply, Mint, Later;
    var u := t.oidcIds[key].user;
    var sync := Synced(t.users[u], Mapped(fold, t.oidc.value.policy, claims.email, claims.groups), ByOidc);
    var t0 := t.(oidcIds := t.oidcIds[key := OidcIdentity(u, Some(claims))]);
    var t1 := Apply(t0, u, sync);
    LaterSame(t);
    BesideLater(t, t0);
    ApplyLater(t0, u, sync);
    LaterThen(t, t0, t1);
    MintLater(t1, u, SignIn.Oidc, false);
    LaterThen(t, t1, Mint(t1, u, SignIn.Oidc, false));
  }

  lemma OidcUnknownLater(fold: Folding, t: Tables, key: (string, string), claims: OidcClaims, how: How)
    requires t.oidc.Some?
    ensures Later(t, OidcUnknown(fold, t, key, claims, how).0)
  {
    hide Mapped, Taken, Mint, Rotate, Later;
    LaterSame(t);
    match how
    case ReauthenticateBy(_) =>
    case LinkBy(s) =>
      if Live(t, s) {
        var u := t.sessions[s].user;
        var t1 := t.(oidcIds := t.oidcIds[key := OidcIdentity(u, Some(claims))]);
        BesideLater(t, t1);
        RotateLater(t1, u, t.users[u], SignIn.Oidc, false);
        LaterThen(t, t1, Rotate(t1, u, t.users[u], SignIn.Oidc, false));
      }
    case Login =>
      var role := Mapped(fold, t.oidc.value.policy, claims.email, claims.groups);
      if role.Some? {
        var t0 := Insert(t, NewUser(claims.email, role.value, true, ByOidc, false, 0));
        var t1 := t0.(oidcIds := t.oidcIds[key := OidcIdentity(t.next, Some(claims))]);
        InsertLater(t, NewUser(claims.email, role.value, true, ByOidc, false, 0));
        BesideLater(t0, t1);
        LaterThen(t, t0, t1);
        MintLater(t1, t.next, SignIn.Oidc, false);
        LaterThen(t, t1, Mint(t1, t.next, SignIn.Oidc, false));
      }
  }

  lemma ProviderLater(fold: Folding, t: Tables, r: Request)
    requires r.ByProvider?
    ensures Later(t, Step(fold, t, r).0)
  {
    hide Later, OidcKnown, OidcUnknown, SamlFollowed, SamlUnknown;
    LaterSame(t);
    if r.bySaml && t.saml.Some? {
      var facts, key := SamlEvidence(t, r), SamlKey(t, r);
      if key in t.samlIds && t.samlIds[key].user in t.users {
        SamlLinkedLater(fold, t, key, t.samlIds[key].user, facts, r.how);
      } else {
        SamlUnknownLater(fold, t, key, facts, r.how);
      }
    } else if !r.bySaml && t.oidc.Some? {
      if OidcKey(t, r) in t.oidcIds && t.oidcIds[OidcKey(t, r)].user in t.users {
        OidcKnownLater(fold, t, OidcKey(t, r), OidcEvidence(t, r), r.how);
      } else {
        OidcUnknownLater(fold, t, OidcKey(t, r), OidcEvidence(t, r), r.how);
      }
    }
  }

  lemma ChangingLater(fold: Folding, t: Tables, r: Request)
    requires r.Update? || r.Deprovision? || r.Recover?
    ensures Later(t, Step(fold, t, r).0)
  {
    hide Later, UsableOwner, Reassign, Changed;
    LaterSame(t);
    match r
    case Update(_, u, _, c) =>
      if u in t.users {
        var row := Changed(t.users[u], c);
        ReassignLater(t, u, row, !row.active || row.role != Owner || row.scope != Global);
      }
    case Deprovision(key) =>
      if key in t.provisioned && t.provisioned[key] in t.users {
        ReassignLater(t, t.provisioned[key], t.users[t.provisioned[key]].(active := false), true);
      }
    case Recover(u) => if u in t.users { ReassignLater(t, u, t.users[u].(password := true), false); }
  }

  lemma ProvisionLater(fold: Folding, t: Tables, key: (string, string), email: string, role: Role, active: bool)
    ensures Later(t, ProvisionUser(fold, t, key, email, role, active).0)
  {
    hide Later, UsableOwner, Reassign, Taken;
    LaterSame(t);
    if key in t.provisioned && t.provisioned[key] in t.users {
      var u := t.provisioned[key];
      ReassignLater(t, u, t.users[u].(email := email, role := role, active := active), !active || role != Owner);
    } else {
      var t0 := Insert(t, NewUser(email, role, active, ByProvisioning, false, 0));
      InsertLater(t, NewUser(email, role, active, ByProvisioning, false, 0));
      BesideLater(t0, t0.(provisioned := t.provisioned[key := t.next]));
      LaterThen(t, t0, t0.(provisioned := t.provisioned[key := t.next]));
    }
  }

  lemma EnteringLater(fold: Folding, t: Tables, r: Request)
    requires r.SetUp? || r.Accept? || r.LogIn?
    ensures Later(t, Step(fold, t, r).0)
  {
    hide Later, Mint, Taken;
    LaterSame(t);
    match r
    case SetUp(email) =>
      var t0 := Insert(t, NewUser(email, Owner, true, ByHand, true, 0));
      var t1 := t0.(complete := true, localLogin := true);
      InsertLater(t, NewUser(email, Owner, true, ByHand, true, 0));
      BesideLater(t0, t1);
      LaterThen(t, t0, t1);
      MintLater(t1, t.next, Local, false);
      LaterThen(t, t1, Mint(t1, t.next, Local, false));
    case Accept(i, _) =>
      if i in t.invitations {
        AcceptLater(t, i);
        var inv := t.invitations[i];
        var t0 := Insert(t, NewUser(inv.email, inv.role, true, ByHand, true, 0));
        var t1 := t0.(invitations := t.invitations[i := inv.(accepted := true)]);
        MintLater(t1, t.next, Local, false);
        LaterThen(t, t1, Mint(t1, t.next, Local, false));
      }
    case LogIn(u, _) => if u in t.users { MintLater(t, u, Local, false); }
  }

  lemma AcceptLater(t: Tables, i: Id)
    requires i in t.invitations
    ensures var inv := t.invitations[i];
            var t0 := Insert(t, NewUser(inv.email, inv.role, true, ByHand, true, 0));
            Later(t, t0.(invitations := t.invitations[i := inv.(accepted := true)]))
  {
  }

  lemma RotatingLater(fold: Folding, t: Tables, r: Request)
    requires r.Password? || r.DropOidc? || r.DropSaml?
    ensures Later(t, Step(fold, t, r).0)
  {
    hide Later, Rotate, UsableOwner, OidcPath, SamlPath, SamlLinked, LocalPath;
    LaterSame(t);
    if Live(t, r.session) {
      var u, s := t.sessions[r.session].user, t.sessions[r.session];
      match r
      case Password(_) => RotateLater(t, u, t.users[u].(password := true), s.signIn, s.mfa);
      case DropOidc(_, key) =>
        var t1 := t.(oidcIds := t.oidcIds - {key});
        BesideLater(t, t1);
        RotateLater(t1, u, t.users[u], s.signIn, s.mfa);
        LaterThen(t, t1, Rotate(t1, u, t.users[u], s.signIn, s.mfa));
      case DropSaml(_, key) =>
        var t1 := t.(samlIds := t.samlIds - {key});
        BesideLater(t, t1);
        RotateLater(t1, u, t.users[u], s.signIn, s.mfa);
        LaterThen(t, t1, Rotate(t1, u, t.users[u], s.signIn, s.mfa));
    }
  }

  lemma PutSamlLater(fold: Folding, t: Tables, c: SamlConfig)
    ensures Later(t, PutSaml(fold, t, c).0)
  {
    hide Later, UsableOwner, Validated, InDate, WithoutFacts;
    BesideLater(t, PutSaml(fold, t, c).0);
  }

  lemma PutOidcLater(fold: Folding, t: Tables, c: OidcConfig, input: ClientSecret)
    ensures Later(t, PutOidc(fold, t, c, input).0)
  {
    hide Later, UsableOwner, Validated, WithoutClaims, NewSecret;
    var secret := NewSecret(t.secret, input);
    LaterSame(t);
    var t1 := t.(oidc := Some(c.(hasSecret := secret.Some?)), secret := secret);
    BesideLater(t, t1);
    BesideLater(t, t1.(oidcIds := WithoutClaims(t.oidcIds)));
  }

  lemma ConfiguringLater(fold: Folding, t: Tables, r: Request)
    requires r.ConfigureOidc? || r.ConfigureSaml? || r.Allow? || r.LogOut? || r.Sweep?
    ensures Later(t, Step(fold, t, r).0)
  {
    hide Later, UsableOwner, PutOidc, PutSaml;
    match r
    case ConfigureOidc(c, secret) => PutOidcLater(fold, t, c, secret);
    case ConfigureSaml(c) => PutSamlLater(fold, t, c);
    case _ => BesideLater(t, Step(fold, t, r).0);
  }

  lemma InviteLater(t: Tables, issuer: Id, email: string, role: Role, hours: nat)
    requires Numbered(t)
    ensures Later(t, Invite(t, issuer, email, role, hours).0)
  {
    hide Taken;
  }

  lemma InvitationStays(i: Invitation)
    ensures InvitationFollows(i, i) && InvitationFollows(i, i.(revoked := true))
  {
  }

  lemma RevokedLater(t: Tables, i: Id, row: Invitation)
    requires i in t.invitations && InvitationFollows(t.invitations[i], row)
    ensures Later(t, t.(invitations := t.invitations[i := row]))
  {
    forall k | k in t.invitations ensures InvitationFollows(t.invitations[k], t.invitations[k]) {
      InvitationStays(t.invitations[k]);
    }
    hide InvitationFollows;
  }

  lemma RetireLater(t: Tables, i: Id)
    ensures Later(t, RetireInvitation(t, i).0)
  {
    hide Later, InvitationFollows;
    LaterSame(t);
    if i in t.invitations {
      InvitationStays(t.invitations[i]);
      RevokedLater(t, i, t.invitations[i].(revoked := true));
    }
  }

  lemma WaitLater(t: Tables, until: Time)
    requires until >= t.now
    ensures Later(t, t.(now := until))
  {
  }

  lemma InvitingLater(fold: Folding, t: Tables, r: Request)
    requires Numbered(t) && (r.Create? || r.Retire? || r.Wait?)
    ensures Later(t, Step(fold, t, r).0)
  {
    hide Invite, RetireInvitation, Later, Numbered;
    match r
    case Create(issuer, email, role, hours) => InviteLater(t, issuer, email, role, hours);
    case Retire(i) => RetireLater(t, i);
    case Wait(until) => WaitLater(t, if until > t.now then until else t.now);
  }

  lemma StepIsLater(fold: Folding, t: Tables, r: Request)
    requires Numbered(t)
    ensures Later(t, Step(fold, t, r).0)
  {
    if r.ByProvider? {
      ProviderLater(fold, t, r);
    } else if r.Update? || r.Deprovision? || r.Recover? {
      ChangingLater(fold, t, r);
    } else if r.Provision? {
      ProvisionLater(fold, t, r.key, r.email, r.role, r.active);
    } else if r.SetUp? || r.Accept? || r.LogIn? {
      EnteringLater(fold, t, r);
    } else if r.Password? || r.DropOidc? || r.DropSaml? {
      RotatingLater(fold, t, r);
    } else if r.Create? || r.Retire? || r.Wait? {
      InvitingLater(fold, t, r);
    } else {
      ConfiguringLater(fold, t, r);
    }
  }

  lemma {:induction false} RunIsLater(fold: Folding, t: Tables, run: seq<Request>)
    requires Inv(t)
    ensures Later(t, After(fold, t, run))
    decreases |run|
  {
    hide Step, Later, Numbered, Vouched, OnePerEmail, Current, Linked;
    LaterSame(t);
    if run != [] {
      StepKeepsInv(fold, t, run[0]);
      var t1 := Step(fold, t, run[0]).0;
      StepIsLater(fold, t, run[0]);
      RunIsLater(fold, t1, run[1..]);
      LaterThen(t, t1, After(fold, t1, run[1..]));
    }
  }

  lemma SpentStaysSpent(t: Tables, t': Tables, i: Id)
    requires Spent(t, i) && Later(t, t')
    ensures Spent(t', i)
  {
  }

  lemma SpentIsRefused(fold: Folding, t: Tables, i: Id, mint: bool)
    requires Spent(t, i)
    ensures Step(fold, t, Accept(i, mint)).1 == Refused
  {
    hide Taken, Mint;
  }

  /** How often a run accepts an invitation. */
  function Acceptances(fold: Folding, t: Tables, run: seq<Request>, i: Id): nat
    decreases |run|
  {
    if run == [] then 0
    else
      var (t', y) := Step(fold, t, run[0]);
      (if run[0].Accept? && run[0].invitation == i && !y.Refused? then 1 else 0) + Acceptances(fold, t', run[1..], i)
  }

  /** Once accepted, revoked or expired, an invitation is accepted in no later run. */
  lemma {:induction false} SpentIsNeverAccepted(fold: Folding, t: Tables, run: seq<Request>, i: Id)
    requires Inv(t) && Spent(t, i)
    ensures Acceptances(fold, t, run, i) == 0
    decreases |run|
  {
    hide Step, Spent, Later, Numbered, Vouched, OnePerEmail, Current, Linked;
    if run != [] {
      StepKeepsInv(fold, t, run[0]);
      if run[0].Accept? && run[0].invitation == i {
        SpentIsRefused(fold, t, i, run[0].mint);
      }
      StepIsLater(fold, t, run[0]);
      SpentStaysSpent(t, Step(fold, t, run[0]).0, i);
      SpentIsNeverAccepted(fold, Step(fold, t, run[0]).0, run[1..], i);
    }
  }

  lemma AcceptedIsSpent(fold: Folding, t: Tables, i: Id, mint: bool)
    requires Inv(t) && !Step(fold, t, Accept(i, mint)).1.Refused?
    ensures Spent(Step(fold, t, Accept(i, mint)).0, i)
  {
    hide Step, Vouched, OnePerEmail, Current, Linked;
    AcceptanceMeans(fold, t, i, mint);
    StepIsLater(fold, t, Accept(i, mint));
  }

  /** In every run an invitation is accepted at most once. */
  lemma {:induction false} AcceptedAtMostOnce(fold: Folding, t: Tables, run: seq<Request>, i: Id)
    requires Inv(t)
    ensures Acceptances(fold, t, run, i) <= 1
    decreases |run|
  {
    hide Step, Spent, Inv;
    if run != [] {
      var (t', y) := Step(fold, t, run[0]);
      StepKeepsInv(fold, t, run[0]);
      if run[0].Accept? && run[0].invitation == i && !y.Refused? {
        AcceptedIsSpent(fold, t, i, run[0].mint);
        SpentIsNeverAccepted(fold, t', run[1..], i);
      } else {
        AcceptedAtMostOnce(fold, t', run[1..], i);
      }
    }
  }

  /** An invitation is made if and only if its issuer is an active, authorized,
      global owner, local sign-in is on, it is for one hour to thirty days, and
      nobody has the email; it is then the email's only open one, as asked, and
      ends when asked. */
  lemma InvitationMeans(fold: Folding, t: Tables, issuer: Id, email: string, role: Role, hours: nat)
    requires Inv(t)
    ensures var (t', y) := Step(fold, t, Create(issuer, email, role, hours));
            && (y.Done? <==>
                  && issuer in t.users && t.users[issuer].active && t.users[issuer].authorized
                  && t.users[issuer].role == Owner && t.users[issuer].scope == Global
                  && t.switch && t.localLogin && 1 <= hours <= 720 && Free(t.users, email))
            && (y.Done? || (y.Refused? && t' == t))
            && (y.Done? ==>
                  && t.next !in t.invitations && t.next in t'.invitations
                  && t'.invitations[t.next] == Invitation(email, role, issuer, t.now + 3600 * hours, false, false)
                  && (forall i :: i in t'.invitations && i != t.next ==> i in t.invitations)
                  && (forall i :: i in t.invitations ==>
                        i in t'.invitations
                        && t'.invitations[i] == t.invitations[i].(revoked :=
                             t.invitations[i].revoked
                               || (t.invitations[i].email == email && !t.invitations[i].accepted)))
                  && t'.users == t.users && t'.sessions == t.sessions)
  {
    hide Vouched, OnePerEmail, Current, Linked;
  }

  /** Revoking is refused only for an invitation that is accepted or not there. */
  lemma RevocationMeans(fold: Folding, t: Tables, i: Id)
    ensures var (t', y) := Step(fold, t, Retire(i));
            if i in t.invitations && !t.invitations[i].accepted then
              y == Done && t' == t.(invitations := t.invitations[i := t.invitations[i].(revoked := true)])
            else y == Refused && t' == t
  {
  }
}
