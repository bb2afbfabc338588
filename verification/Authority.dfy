/** Who may administer an installation: users, sessions, invitations, linked
    identities and sign-in configuration, and what the handlers of identity.go,
    provisioning.go, oidc.go, saml_flow.go, saml_config.go, saml_identities.go,
    sessions.go and recovery.go in internal/access do to them.

    Each handler is one transaction under the installation lock, so one step; a
    refused one leaves the tables as they were. */
module Authority {
  import opened Common
  import opened Kernel
  import opened RoleMapping

  datatype Invitation = Invitation(email: string, role: Role, issuer: Id, expires: Time, accepted: bool, revoked: bool)

  datatype OidcIdentity = OidcIdentity(user: Id, claims: Option<OidcClaims>)
  datatype SamlIdentity = SamlIdentity(user: Id, facts: Option<SamlFacts>)

  /** Identities are keyed by issuer and subject, provisioned users by source and
      external id. `switch` is the process's own permission for local sign-in. */
  datatype Tables = Tables(
    now: Time, next: Id, complete: bool, switch: bool, localLogin: bool,
    users: map<Id, User>, sessions: map<Id, Session>, invitations: map<Id, Invitation>,
    oidc: Option<OidcConfig>, secret: Option<nat>, saml: Option<SamlConfig>,
    oidcIds: map<(string, string), OidcIdentity>, samlIds: map<(string, string), SamlIdentity>,
    provisioned: map<(string, string), Id>)

  datatype Reply = Refused | Done | Granted | Denied | SignedIn(session: Id)

  // Reading.

  predicate IsOwner(u: User) {
    u.active && u.authorized && u.role == Owner && u.scope == Global
  }

  predicate Open(i: Invitation) {
    !i.accepted && !i.revoked
  }

  predicate Pending(i: Invitation, now: Time) {
    Open(i) && i.expires > now
  }

  predicate Taken(users: map<Id, User>, email: string) {
    exists u :: u in users && users[u].email == email
  }

  predicate LocalLogin(t: Tables) {
    t.switch && t.localLogin
  }

  /** Whether a session authenticates its user. */
  predicate Live(t: Tables, s: Id) {
    && s in t.sessions && t.sessions[s].expires > t.now && t.sessions[s].user in t.users
    && t.users[t.sessions[s].user].active && t.users[t.sessions[s].user].authorized
  }

  // The owner that EnsureUsableOwner looks for.

  predicate LocalOwner(t: Tables) {
    LocalLogin(t) && exists u :: u in t.users && IsOwner(t.users[u]) && t.users[u].password
  }

  predicate SamlOwns(fold: Folding, t: Tables, key: (string, string)) {
    && t.saml.Some? && key in t.samlIds && key.0 == t.saml.value.entity
    && var id := t.samlIds[key];
    && id.user in t.users && IsOwner(t.users[id.user])
    && SamlSignInRole(fold, t.saml.value, t.users[id.user].management, Owner, id.facts) == Some(Owner)
  }

  predicate SamlOwner(fold: Folding, t: Tables) {
    && t.saml.Some? && t.saml.value.enabled && InDate(t.saml.value, t.now)
    && exists key :: key in t.samlIds && SamlOwns(fold, t, key)
  }

  predicate OidcOwns(fold: Folding, t: Tables, key: (string, string)) {
    && t.oidc.Some? && key in t.oidcIds && key.0 == t.oidc.value.issuer
    && var id := t.oidcIds[key];
    && id.user in t.users && IsOwner(t.users[id.user])
    && OidcSignInRole(fold, t.oidc.value, t.users[id.user].management != ByOidc, Owner, id.claims) == Some(Owner)
  }

  predicate OidcOwner(fold: Folding, t: Tables) {
    t.oidc.Some? && t.oidc.value.enabled && exists key :: key in t.oidcIds && OidcOwns(fold, t, key)
  }

  predicate UsableOwner(fold: Folding, t: Tables) {
    LocalOwner(t) || SamlOwner(fold, t) || OidcOwner(fold, t)
  }

  /** A protected change commits only if a usable owner remains. */
  function Protect(fold: Folding, t: Tables, t': Tables, y: Reply): (Tables, Reply) {
    if UsableOwner(fold, t') then (t', y) else (t, Refused)
  }

  // Writing.

  /** newSession. */
  function Mint(t: Tables, u: Id, signIn: SignIn, mfa: bool): Tables
    requires u in t.users
  {
    t.(next := t.next + 1,
       sessions := (t.sessions - Surplus(SessionsOf(t.sessions, u), 19))[t.next :=
         Session(u, signIn, mfa, t.now + SESSION_TTL, StandingOf(t.users[u]))])
  }

  /** retireIssuedInvitations. */
  function Retired(invitations: map<Id, Invitation>, u: Id, now: Time): map<Id, Invitation> {
    map i | i in invitations ::
      if invitations[i].issuer == u && Pending(invitations[i], now) then invitations[i].(revoked := true)
      else invitations[i]
  }

  /** A change of a user's authority: a fresh entity tag, no session left, and
      with `retire` no invitation of theirs left pending. */
  function Reassign(t: Tables, u: Id, row: User, retire: bool): Tables {
    t.(next := t.next + 1, users := t.users[u := row.(etag := t.next)],
       sessions := t.sessions - SessionsOf(t.sessions, u),
       invitations := if retire then Retired(t.invitations, u, t.now) else t.invitations)
  }

  function NewUser(email: string, role: Role, active: bool, management: Management, password: bool, etag: Id): User {
    User(email, role, active, true, Global, management, password, etag, etag)
  }

  function Insert(t: Tables, row: User): Tables {
    t.(next := t.next + 2, users := t.users[t.next := row.(etag := t.next + 1, mfaRevision := t.next + 1)])
  }

  /** changeSignInMethod. */
  function Rotate(t: Tables, u: Id, row: User, signIn: SignIn, mfa: bool): Tables {
    Mint(t.(next := t.next + 1, users := t.users[u := row.(etag := t.next)],
      sessions := t.sessions - SessionsOf(t.sessions, u)), u, signIn, mfa)
  }

  // The handlers.

  function Setup(t: Tables, email: string): (Tables, Reply) {
    if t.complete || Taken(t.users, email) then (t, Refused)
    else
      var t1 := Insert(t, NewUser(email, Owner, true, ByHand, true, 0)).(complete := true, localLogin := true);
      (Mint(t1, t.next, Local, false), SignedIn(t1.next))
  }

  datatype Change = Change(role: Option<Role>, active: Option<bool>, scope: Option<Scope>)

  function Changed(u: User, c: Change): User {
    u.(role := if c.role.Some? then c.role.value else u.role,
       active := if c.active.Some? then c.active.value else u.active,
       scope := if c.scope.Some? then c.scope.value else u.scope,
       management := if u.management == ByProvisioning then ByHand else u.management)
  }

  function UpdateUser(fold: Folding, t: Tables, actor: Id, u: Id, ifMatch: Id, c: Change): (Tables, Reply) {
    if u !in t.users || actor !in t.users || c == Change(None, None, None) || ifMatch != t.users[u].etag then
      (t, Refused)
    else
      var row := Changed(t.users[u], c);
      if u == actor && (!row.active || row.role != t.users[actor].role || row.scope != t.users[actor].scope) then
        (t, Refused)
      else Protect(fold, t, Reassign(t, u, row, !row.active || row.role != Owner || row.scope != Global), Done)
  }

  function ProvisionUser(fold: Folding, t: Tables, key: (string, string), email: string, role: Role,
      active: bool): (Tables, Reply) {
    if key in t.provisioned && t.provisioned[key] in t.users then
      var u := t.provisioned[key];
      if t.users[u].management != ByProvisioning || Taken(t.users - {u}, email) then (t, Refused)
      else Protect(fold, t,
        Reassign(t, u, t.users[u].(email := email, role := role, active := active), !active || role != Owner), Done)
    else if Taken(t.users, email) then (t, Refused)
    else
      var row := NewUser(email, role, active, ByProvisioning, false, 0);
      Protect(fold, t, Insert(t, row).(provisioned := t.provisioned[key := t.next]), Done)
  }

  function DeprovisionUser(fold: Folding, t: Tables, key: (string, string)): (Tables, Reply) {
    if key !in t.provisioned || t.provisioned[key] !in t.users
      || t.users[t.provisioned[key]].management != ByProvisioning then (t, Refused)
    else
      var u := t.provisioned[key];
      Protect(fold, t, Reassign(t, u, t.users[u].(active := false), true), Done)
  }

  /** createInvitation. The route admits principals with the access operation
      over the whole installation: owners, and tokens made by one. */
  function Invite(t: Tables, issuer: Id, email: string, role: Role, hours: nat): (Tables, Reply) {
    if issuer !in t.users || !IsOwner(t.users[issuer]) || !LocalLogin(t) || !(1 <= hours <= 720)
      || Taken(t.users, email) then (t, Refused)
    else
      var revoked := map i | i in t.invitations ::
        if t.invitations[i].email == email && Open(t.invitations[i]) then t.invitations[i].(revoked := true)
        else t.invitations[i];
      (t.(next := t.next + 1,
        invitations := revoked[t.next := Invitation(email, role, issuer, t.now + 3600 * hours, false, false)]), Done)
  }

  function RetireInvitation(t: Tables, i: Id): (Tables, Reply) {
    if i !in t.invitations || t.invitations[i].accepted then (t, Refused)
    else (t.(invitations := t.invitations[i := t.invitations[i].(revoked := true)]), Done)
  }

  /** acceptInvitation; `mint` says whether localSession signs in at once or
      first asks for a second factor. */
  function AcceptInvitation(t: Tables, i: Id, mint: bool): (Tables, Reply) {
    if !LocalLogin(t) || i !in t.invitations || !Pending(t.invitations[i], t.now)
      || Taken(t.users, t.invitations[i].email) then (t, Refused)
    else
      var inv := t.invitations[i];
      var t0 := Insert(t, NewUser(inv.email, inv.role, true, ByHand, true, 0));
      var t1 := t0.(invitations := t.invitations[i := inv.(accepted := true)]);
      if mint then (Mint(t1, t.next, Local, false), SignedIn(t1.next)) else (t1, Done)
  }

  datatype ClientSecret = Keep | Remove | Replace(value: nat)

  function NewSecret(secret: Option<nat>, input: ClientSecret): Option<nat> {
    match input
    case Keep => secret
    case Remove => None
    case Replace(x) => Some(x)
  }

  function WithoutClaims(ids: map<(string, string), OidcIdentity>): map<(string, string), OidcIdentity> {
    map k | k in ids :: ids[k].(claims := None)
  }

  function WithoutFacts(ids: map<(string, string), SamlIdentity>): map<(string, string), SamlIdentity> {
    map k | k in ids :: ids[k].(facts := None)
  }

  /** putOIDCConfiguration. A new client secret voids the evidence of earlier
      sign-ins. */
  function PutOidc(fold: Folding, t: Tables, c: OidcConfig, input: ClientSecret): (Tables, Reply) {
    if "openid" !in c.scopes || !Validated(fold, c.policy) then (t, Refused)
    else
      var secret := NewSecret(t.secret, input);
      var ids := if secret != t.secret then WithoutClaims(t.oidcIds) else t.oidcIds;
      Protect(fold, t, t.(oidc := Some(c.(hasSecret := secret.Some?)), secret := secret, oidcIds := ids), Done)
  }

  /** StoreSAMLDefinition. */
  function PutSaml(fold: Folding, t: Tables, c: SamlConfig): (Tables, Reply) {
    if !Validated(fold, c.policy) || !InDate(c, t.now) then (t, Refused)
    else
      var same :=
        t.saml.Some? && t.saml.value.entity == c.entity
        && t.saml.value.emailAttribute == c.emailAttribute && t.saml.value.groupsAttribute == c.groupsAttribute;
      var t1 := t.(saml := Some(c), samlIds := if same then t.samlIds else WithoutFacts(t.samlIds));
      Protect(fold, t, if c.enabled then t1
        else t1.(sessions := t.sessions - set s | s in t.sessions && t.sessions[s].signIn == Saml), Done)
  }

  /** updateSetting of auth.local_login_enabled. */
  function SetLocalLogin(fold: Folding, t: Tables, enabled: bool): (Tables, Reply) {
    Protect(fold, t, t.(localLogin := enabled), Done)
  }

  // Sign-in methods of one user.

  predicate OidcPath(fold: Folding, t: Tables, u: Id)
    requires u in t.users
  {
    && t.oidc.Some? && t.oidc.value.enabled
    && exists key :: key in t.oidcIds && key.0 == t.oidc.value.issuer && t.oidcIds[key].user == u
                     && OidcSignInRole(fold, t.oidc.value, t.users[u].management != ByOidc, t.users[u].role,
                        t.oidcIds[key].claims).Some?
  }

  /** usableSAMLIdentities. */
  predicate SamlPath(fold: Folding, t: Tables, u: Id)
    requires u in t.users
  {
    t.saml.Some? && t.saml.value.enabled && InDate(t.saml.value, t.now) && SamlLinked(fold, t, u)
  }

  predicate SamlLinked(fold: Folding, t: Tables, u: Id)
    requires u in t.users
  {
    && t.saml.Some?
    && exists key :: key in t.samlIds && key.0 == t.saml.value.entity && t.samlIds[key].user == u
                     && SamlSignInRole(fold, t.saml.value, t.users[u].management, t.users[u].role,
                        t.samlIds[key].facts).Some?
  }

  predicate LocalPath(t: Tables, u: Id)
    requires u in t.users
  {
    t.users[u].password && LocalLogin(t)
  }

  function UnlinkOidc(fold: Folding, t: Tables, s: Id, key: (string, string)): (Tables, Reply) {
    if !Live(t, s) || key !in t.oidcIds || t.oidcIds[key].user != t.sessions[s].user then (t, Refused)
    else
      var u := t.sessions[s].user;
      var t1 := t.(oidcIds := t.oidcIds - {key});
      var byHand := t.users[u].management != ByOidc;
      if !(byHand && LocalPath(t1, u)) && !OidcPath(fold, t1, u) && !(byHand && SamlPath(fold, t1, u)) then (t, Refused)
      else Protect(fold, t, Rotate(t1, u, t.users[u], t.sessions[s].signIn, t.sessions[s].mfa), SignedIn(t.next + 1))
  }

  /** unlinkSAML counts a linked SAML identity without looking at the clock. */
  function UnlinkSaml(fold: Folding, t: Tables, s: Id, key: (string, string)): (Tables, Reply) {
    if !Live(t, s) || key !in t.samlIds || t.samlIds[key].user != t.sessions[s].user then (t, Refused)
    else
      var u := t.sessions[s].user;
      var t1 := t.(samlIds := t.samlIds - {key});
      var byHand := t.users[u].management != BySaml;
      if !(byHand && LocalPath(t1, u)) && !(byHand && OidcPath(fold, t1, u)) && !SamlLinked(fold, t1, u) then
        (t, Refused)
      else Protect(fold, t, Rotate(t1, u, t.users[u], t.sessions[s].signIn, t.sessions[s].mfa), SignedIn(t.next + 1))
  }

  // Sign-in through an identity provider.

  datatype How = Login | LinkBy(session: Id) | ReauthenticateBy(session: Id)

  function Apply(t: Tables, u: Id, sync: Sync): Tables
    requires u in t.users
  {
    if sync.changed then
      Reassign(t, u, t.users[u].(role := sync.role, authorized := sync.authorized), !sync.allowed || sync.role != Owner)
    else t
  }

  /** The callback's last transaction for an identity already linked. */
  function OidcKnown(fold: Folding, t: Tables, key: (string, string), claims: OidcClaims, how: How): (Tables, Reply)
    requires t.oidc.Some? && key in t.oidcIds && t.oidcIds[key].user in t.users
  {
    var u := t.oidcIds[key].user;
    var sync := Synced(t.users[u], Mapped(fold, t.oidc.value.policy, claims.email, claims.groups), ByOidc);
    var t1 := Apply(t.(oidcIds := t.oidcIds[key := OidcIdentity(u, Some(claims))]), u, sync);
    if how.LinkBy? then (t, Refused)
    else if !sync.allowed || (sync.changed && how.ReauthenticateBy?) then (t1, Denied)
    else if how.ReauthenticateBy? then (t1, Granted)
    else if !t.users[u].active then (t, Refused)
    else (Mint(t1, u, SignIn.Oidc, false), SignedIn(t1.next))
  }

  /** The same for an identity not linked yet. */
  function OidcUnknown(fold: Folding, t: Tables, key: (string, string), claims: OidcClaims, how: How): (Tables, Reply)
    requires t.oidc.Some?
  {
    match how
    case ReauthenticateBy(_) => (t, Refused)
    case LinkBy(s) =>
      if !Live(t, s) then (t, Refused)
      else
        var u := t.sessions[s].user;
        (Rotate(t.(oidcIds := t.oidcIds[key := OidcIdentity(u, Some(claims))]), u, t.users[u], SignIn.Oidc, false),
          SignedIn(t.next + 1))
    case Login =>
      var role := Mapped(fold, t.oidc.value.policy, claims.email, claims.groups);
      if Taken(t.users, claims.email) || role.None? || !t.complete then (t, Refused)
      else
        var t0 := Insert(t, NewUser(claims.email, role.value, true, ByOidc, false, 0));
        var t1 := t0.(oidcIds := t.oidcIds[key := OidcIdentity(t.next, Some(claims))]);
        (Mint(t1, t.next, SignIn.Oidc, false), SignedIn(t1.next))
  }

  /** oidcCallback, for verified claims of a subject. */
  function OidcSignIn(fold: Folding, t: Tables, subject: string, email: string, groups: seq<string>,
      how: How): (Tables, Reply) {
    if t.oidc.None? || !t.oidc.value.enabled || (!how.Login? && !Live(t, how.session)) then (t, Refused)
    else
      var c := t.oidc.value;
      var key := (c.issuer, subject);
      var claims := OidcClaims(c.client, c.scopes, c.emailClaim, c.groupsClaim, email, groups);
      if key in t.oidcIds && t.oidcIds[key].user in t.users then
        if how.ReauthenticateBy? && t.oidcIds[key].user != t.sessions[how.session].user then (t, Refused)
        else OidcKnown(fold, t, key, claims, how)
      else OidcUnknown(fold, t, key, claims, how)
  }

  /** acceptSAML after the account is known: record the facts, follow the
      provider, and grant or sign in. */
  function SamlFollowed(fold: Folding, t: Tables, u: Id, facts: SamlFacts, how: How): (Tables, Reply)
    requires t.saml.Some? && u in t.users
  {
    var sync := Synced(t.users[u], Mapped(fold, t.saml.value.policy, facts.email, facts.groups), BySaml);
    var t1 := Apply(t, u, sync);
    if !sync.allowed || (sync.changed && how.ReauthenticateBy?) then (t1, Denied)
    else if !t1.users[u].active || !t1.users[u].authorized then (t, Refused)
    else if how.ReauthenticateBy? then (t1, Granted)
    else if how.LinkBy? then (Rotate(t1, u, t1.users[u], SignIn.Saml, false), SignedIn(t1.next + 1))
    else (Mint(t1, u, SignIn.Saml, false), SignedIn(t1.next))
  }

  /** A refusal rolls back to where the transaction began. */
  function Committed(t: Tables, r: (Tables, Reply)): (Tables, Reply) {
    if r.1.Refused? then (t, Refused) else r
  }

  function SamlKnown(fold: Folding, t: Tables, key: (string, string), facts: SamlFacts, how: How): (Tables, Reply)
    requires t.saml.Some? && key in t.samlIds && t.samlIds[key].user in t.users
  {
    var u := t.samlIds[key].user;
    if how.LinkBy? then (t, Refused)
    else Committed(t, SamlFollowed(fold, t.(samlIds := t.samlIds[key := SamlIdentity(u, Some(facts))]), u, facts, how))
  }

  function SamlUnknown(fold: Folding, t: Tables, key: (string, string), facts: SamlFacts, how: How): (Tables, Reply)
    requires t.saml.Some?
  {
    match how
    case ReauthenticateBy(_) => (t, Refused)
    case LinkBy(s) =>
      if !Live(t, s) then (t, Refused)
      else
        var u := t.sessions[s].user;
        Committed(t, SamlFollowed(fold, t.(samlIds := t.samlIds[key := SamlIdentity(u, Some(facts))]), u, facts, how))
    case Login =>
      var role := Mapped(fold, t.saml.value.policy, facts.email, facts.groups);
      if !t.complete || Taken(t.users, facts.email) then (t, Refused)
      else if role.None? then (t, Denied)
      else
        var t0 := Insert(t, NewUser(facts.email, role.value, true, BySaml, false, 0));
        var t1 := t0.(samlIds := t.samlIds[key := SamlIdentity(t.next, Some(facts))]);
        Committed(t, SamlFollowed(fold, t1, t.next, facts, how))
  }

  /** completeSAML, for the facts of a received assertion. A denial commits. */
  function SamlSignIn(fold: Folding, t: Tables, subject: string, email: string, groups: seq<string>,
      how: How): (Tables, Reply) {
    if t.saml.None? || !t.saml.value.enabled || (!how.Login? && !Live(t, how.session)) then (t, Refused)
    else
      var c := t.saml.value;
      var key := (c.entity, subject);
      var facts := SamlFacts(c.emailAttribute, c.groupsAttribute, email, groups);
      if key in t.samlIds && t.samlIds[key].user in t.users then
        if how.ReauthenticateBy? && t.samlIds[key].user != t.sessions[how.session].user then (t, Refused)
        else SamlKnown(fold, t, key, facts, how)
      else SamlUnknown(fold, t, key, facts, how)
  }

  // Passwords and sessions.

  function SignInLocally(t: Tables, u: Id, mint: bool): (Tables, Reply) {
    if !LocalLogin(t) || u !in t.users || !t.users[u].active || !t.users[u].authorized || !t.users[u].password then
      (t, Refused)
    else if mint then (Mint(t, u, Local, false), SignedIn(t.next)) else (t, Done)
  }

  function SetPassword(t: Tables, s: Id): (Tables, Reply) {
    if !Live(t, s) then (t, Refused)
    else
      var u := t.sessions[s].user;
      (Rotate(t, u, t.users[u].(password := true), t.sessions[s].signIn, t.sessions[s].mfa), SignedIn(t.next + 1))
  }

  function RecoverPassword(t: Tables, u: Id): (Tables, Reply) {
    if u !in t.users || !t.users[u].active then (t, Refused)
    else (Reassign(t, u, t.users[u].(password := true), false), Done)
  }

  datatype Request =
    | SetUp(email: string)
    | Update(actor: Id, user: Id, ifMatch: Id, change: Change)
    | Provision(key: (string, string), email: string, role: Role, active: bool)
    | Deprovision(key: (string, string))
    | Create(issuer: Id, email: string, role: Role, hours: nat)
    | Retire(invitation: Id)
    | Accept(invitation: Id, mint: bool)
    | ConfigureOidc(oidc: OidcConfig, secret: ClientSecret)
    | ConfigureSaml(saml: SamlConfig)
    | Allow(localLogin: bool)
    | DropOidc(session: Id, key: (string, string))
    | DropSaml(session: Id, key: (string, string))
    | Password(session: Id)
    | Recover(user: Id)
    | LogIn(user: Id, mint: bool)
    | LogOut(session: Id)
    | Sweep(sessions: set<Id>)
    | ByProvider(bySaml: bool, subject: string, email: string, groups: seq<string>, how: How)
    | Wait(until: Time)

  function Step(fold: Folding, t: Tables, r: Request): (Tables, Reply) {
    match r
    case SetUp(email) => Setup(t, email)
    case Update(actor, u, ifMatch, c) => UpdateUser(fold, t, actor, u, ifMatch, c)
    case Provision(key, email, role, active) => ProvisionUser(fold, t, key, email, role, active)
    case Deprovision(key) => DeprovisionUser(fold, t, key)
    case Create(issuer, email, role, hours) => Invite(t, issuer, email, role, hours)
    case Retire(i) => RetireInvitation(t, i)
    case Accept(i, mint) => AcceptInvitation(t, i, mint)
    case ConfigureOidc(c, secret) => PutOidc(fold, t, c, secret)
    case ConfigureSaml(c) => PutSaml(fold, t, c)
    case Allow(enabled) => SetLocalLogin(fold, t, enabled)
    case DropOidc(s, key) => UnlinkOidc(fold, t, s, key)
    case DropSaml(s, key) => UnlinkSaml(fold, t, s, key)
    case Password(s) => SetPassword(t, s)
    case Recover(u) => RecoverPassword(t, u)
    case LogIn(u, mint) => SignInLocally(t, u, mint)
    case LogOut(s) => (t.(sessions := t.sessions - {s}), Done)
    case Sweep(sessions) => (t.(sessions := t.sessions - set s | s in sessions && s in t.sessions
      && t.sessions[s].expires <= t.now), Done)
    case ByProvider(bySaml, subject, email, groups, how) =>
      if bySaml then SamlSignIn(fold, t, subject, email, groups, how)
      else OidcSignIn(fold, t, subject, email, groups, how)
    case Wait(until) => (t.(now := if until > t.now then until else t.now), Done)
  }

  function After(fold: Folding, t: Tables, run: seq<Request>): Tables
    decreases |run|
  {
    if run == [] then t else After(fold, Step(fold, t, run[0]).0, run[1..])
  }

  /** An installation before its setup. */
  predicate Empty(t: Tables) {
    && !t.complete && t.users == map[] && t.sessions == map[] && t.invitations == map[]
    && t.oidcIds == map[] && t.samlIds == map[] && t.provisioned == map[]
  }
}
