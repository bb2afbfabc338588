/** Local multi-factor authentication: the tables that mfa_verify.go,
    mfa_manage.go, mfa_state.go and recovery.go of internal/access change, and
    what each handler's transaction does to them.

    Every handler first locks the installation row, so a transaction is one
    step; a refused one leaves the tables as they were. A challenge or session
    is named by its row, standing for the token whose digest finds the row. */
module Mfa {
  import opened Common
  import opened Kernel

  const MFA_TTL: Time := 300
  const MAX_FACTORS: nat := 10
  const MAX_ATTEMPTS: nat := 5
  const RECOVERY_CODES: nat := 10

  datatype Kind = Totp | WebAuthn

  /** olp.mfa_factors, keyed by the id of the factor's sealed secret. */
  datatype Factor = Factor(user: Id, kind: Kind, last: int)

  datatype Purpose = Login | Bootstrap | Manage | Reauth | EnrollTotp | EnrollWebAuthn

  /** olp.mfa_challenges. `webauthn` says whether it carries a WebAuthn challenge. */
  datatype Challenge = Challenge(
    user: Id, etag: Id, revision: Id, session: Option<Id>, purpose: Purpose,
    secret: Option<Id>, webauthn: bool, attempts: nat, expires: Time)

  /** olp.secrets, of which only the expiry matters here. */
  datatype Secret = Secret(expires: Option<Time>)

  /** `codes` is olp.mfa_recovery_codes, digest to user. */
  datatype Tables = Tables(
    now: Time, next: Id, localLogin: bool, mfaRequired: bool,
    users: map<Id, User>, sessions: map<Id, Session>, factors: map<Id, Factor>,
    codes: map<Id, Id>, challenges: map<Id, Challenge>, secrets: map<Id, Secret>)

  /** What a caller presents. A TOTP code stands for the secret and the time
      step it was generated from, and a WebAuthn assertion for the factor whose
      authenticator made it. */
  datatype Proof =
    | TotpCode(secret: Id, counter: nat)
    | RecoveryCode(digest: Id)
    | Assertion(factor: Id, genuine: bool)
    | Attestation(genuine: bool)

  datatype Reply =
    | Refused
    | Failed
    | Issued(challenge: Id)
    | SignedIn(session: Id)
    | Granted
    | Enrolled(factor: Id, newSession: Id)
    | Done

  // Reading the tables.

  function FactorsOf(factors: map<Id, Factor>, u: Id): set<Id> {
    set f | f in factors && factors[f].user == u
  }

  predicate HasTotp(factors: map<Id, Factor>, u: Id) {
    exists f :: f in factors && factors[f].user == u && factors[f].kind.Totp?
  }

  predicate HasKey(factors: map<Id, Factor>, u: Id) {
    exists f :: f in factors && factors[f].user == u && factors[f].kind.WebAuthn?
  }

  predicate HasCode(codes: map<Id, Id>, u: Id) {
    exists d :: d in codes && codes[d] == u
  }

  function ChallengesOf(challenges: map<Id, Challenge>, u: Id): set<Id> {
    set c | c in challenges && challenges[c].user == u
  }

  predicate Usable(t: Tables, u: Id) {
    u in t.users && t.users[u].active && t.users[u].authorized
  }

  /** Whether Authenticate accepts the session (principal.go:81). */
  predicate Authentic(t: Tables, s: Id) {
    && s in t.sessions
    && t.sessions[s].expires > t.now
    && Usable(t, t.sessions[s].user)
    && (!t.sessions[s].signIn.Local? || t.sessions[s].mfa
       || (FactorsOf(t.factors, t.sessions[s].user) == {} && !t.mfaRequired))
  }

  /** Whether loadMFAFlow finds the challenge for a caller holding `caller`. */
  predicate Loadable(t: Tables, c: Id, caller: Option<Id>) {
    && c in t.challenges
    && var ch := t.challenges[c];
    && ch.expires > t.now
    && ch.attempts < MAX_ATTEMPTS
    && Usable(t, ch.user)
    && t.users[ch.user].etag == ch.etag
    && t.users[ch.user].mfaRevision == ch.revision
    && match ch.session
       case None => t.localLogin
       case Some(s) => caller == Some(s) && Authentic(t, s) && t.sessions[s].user == ch.user
  }

  predicate Readable(t: Tables, secret: Id) {
    secret in t.secrets && (t.secrets[secret].expires.None? || t.secrets[secret].expires.value > t.now)
  }

  /** A counter within one step of the clock, later than any accepted one. */
  predicate FreshCounter(t: Tables, counter: nat, last: int) {
    t.now / 30 - 1 <= counter <= t.now / 30 + 1 && counter > last
  }

  /** Whether the proof answers the challenge. */
  predicate Proves(t: Tables, ch: Challenge, proof: Proof) {
    match ch.purpose
    case EnrollTotp =>
      proof.TotpCode? && ch.secret == Some(proof.secret) && FreshCounter(t, proof.counter, -1)
    case EnrollWebAuthn => proof.Attestation? && ch.webauthn && proof.genuine
    case Bootstrap => false
    case _ =>
      match proof
      case TotpCode(f, counter) =>
        f in t.factors && t.factors[f].user == ch.user && t.factors[f].kind.Totp?
          && FreshCounter(t, counter, t.factors[f].last)
      case RecoveryCode(d) => d in t.codes && t.codes[d] == ch.user
      case Assertion(f, genuine) =>
        ch.webauthn && genuine && f in t.factors && t.factors[f].user == ch.user && t.factors[f].kind.WebAuthn?
      case Attestation(_) => false
  }

  // Writing the tables, one statement or a few that belong together.

  /** Deleting sessions takes along the challenges that reference them. */
  function DropSessions(t: Tables, gone: set<Id>): Tables {
    t.(sessions := t.sessions - gone,
       challenges := map c | c in t.challenges
         && (t.challenges[c].session.None? || t.challenges[c].session.value !in gone) :: t.challenges[c])
  }

  function DropChallenges(t: Tables, gone: set<Id>): Tables {
    t.(challenges := t.challenges - gone)
  }

  /** Deleting secrets takes along the challenges that reference them. */
  function DropSecrets(t: Tables, gone: set<Id>): Tables {
    t.(secrets := t.secrets - gone,
       challenges := map c | c in t.challenges
         && (t.challenges[c].secret.None? || t.challenges[c].secret.value !in gone) :: t.challenges[c])
  }

  function AddSession(t: Tables, u: Id, signIn: Kernel.SignIn, mfa: bool): Tables
    requires u in t.users
  {
    t.(next := t.next + 1,
       sessions := t.sessions[t.next := Session(u, signIn, mfa, t.now + SESSION_TTL, StandingOf(t.users[u]))])
  }

  /** newSession: at most twenty sessions per user (sessions.go:36-59). */
  function NewSession(t: Tables, u: Id, signIn: Kernel.SignIn, mfa: bool): Tables
    requires u in t.users
  {
    AddSession(DropSessions(t, Surplus(SessionsOf(t.sessions, u), 19)), u, signIn, mfa)
  }

  function AddSecret(t: Tables, expires: Option<Time>): Tables {
    t.(next := t.next + 1, secrets := t.secrets[t.next := Secret(expires)])
  }

  function Stale(t: Tables, u: Id): set<Id> {
    set c | c in t.challenges && (t.challenges[c].expires <= t.now || c in Surplus(ChallengesOf(t.challenges, u), 7))
  }

  function StaleSecrets(t: Tables, u: Id): set<Id> {
    set c | c in Stale(t, u) && t.challenges[c].secret.Some? && t.challenges[c].secret.value !in t.factors ::
        t.challenges[c].secret.value
  }

  function Prune(t: Tables, u: Id): Tables {
    DropSecrets(DropChallenges(t, Stale(t, u)), StaleSecrets(t, u))
  }

  function AddChallenge(t: Tables, u: Id, session: Option<Id>, purpose: Purpose, secret: Option<Id>,
      webauthn: bool): Tables
    requires u in t.users
  {
    t.(next := t.next + 1,
       challenges := t.challenges[t.next :=
         Challenge(u, t.users[u].etag, t.users[u].mfaRevision, session, purpose, secret, webauthn, 0, t.now + MFA_TTL)])
  }

  /** storeMFAFlow: at most eight challenges per user. */
  function StoreFlow(t: Tables, u: Id, session: Option<Id>, purpose: Purpose, secret: Option<Id>,
      webauthn: bool): Tables
    requires u in t.users
  {
    AddChallenge(Prune(t, u), u, session, purpose, secret, webauthn)
  }

  function FreshRevision(t: Tables, u: Id): Tables
    requires u in t.users
  {
    t.(next := t.next + 1, users := t.users[u := t.users[u].(mfaRevision := t.next)])
  }

  /** The ten digests that replaceRecoveryCodes inserts. */
  function NewCodes(t: Tables): set<Id> {
    Drawn(t.next, RECOVERY_CODES)
  }

  function DropCodes(t: Tables, u: Id): Tables {
    t.(codes := map d | d in t.codes && t.codes[d] != u :: t.codes[d])
  }

  /** replaceRecoveryCodes. */
  function ReplaceCodes(t: Tables, u: Id): Tables {
    t.(next := t.next + RECOVERY_CODES, codes := DropCodes(t, u).codes + CodesFor(u, NewCodes(t)))
  }

  function CodesFor(u: Id, digests: set<Id>): map<Id, Id> {
    map d | d in digests :: u
  }

  /** A factor row, its secret kept for good, and a fresh revision. */
  function AddFactor(t: Tables, f: Id, u: Id, kind: Kind, counter: int): Tables
    requires u in t.users
  {
    FreshRevision(t.(secrets := t.secrets[f := Secret(None)], factors := t.factors[f := Factor(u, kind, counter)]), u)
  }

  /** Without factors, no local session of the user counts as verified. */
  function Unverify(t: Tables, u: Id): Tables {
    DropCodes(t.(sessions := map s | s in t.sessions ::
                   if t.sessions[s].user == u && t.sessions[s].signIn.Local? then t.sessions[s].(mfa := false)
                   else t.sessions[s]), u)
  }

  /** A factor's row and secret go, with a fresh revision. */
  function RemoveFactor(t: Tables, f: Id): Tables
    requires f in t.factors && t.factors[f].user in t.users
  {
    var u := t.factors[f].user;
    FreshRevision(DropSecrets(t.(factors := t.factors - {f}), {f}), u)
  }

  // The handlers.

  /** mfaChallenge. `origin` says whether WebAuthn works at the public origin. */
  function Challenged(t: Tables, u: Id, purpose: Purpose, session: Option<Id>, origin: bool): (Tables, Reply)
    requires Usable(t, u)
  {
    if purpose.Bootstrap? || HasTotp(t.factors, u) || HasCode(t.codes, u) || (HasKey(t.factors, u) && origin) then
      (StoreFlow(t, u, session, purpose, None, HasKey(t.factors, u) && origin), Issued(t.next))
    else (t, Refused)
  }

  /** localSession, once the password was verified (sessions.go:89-125). */
  function LocalSession(t: Tables, u: Id, origin: bool): (Tables, Reply) {
    if !t.localLogin || !Usable(t, u) then (t, Refused)
    else if FactorsOf(t.factors, u) != {} then Challenged(t, u, Login, None, origin)
    else if t.mfaRequired then Challenged(t, u, Bootstrap, None, origin)
    else (NewSession(t, u, Local, false), SignedIn(t.next))
  }

  /** mfaManageChallenge, and reauthenticate for a user with factors. */
  function SessionChallenge(t: Tables, s: Id, purpose: Purpose, origin: bool): (Tables, Reply) {
    if Authentic(t, s) && (purpose.Manage? || purpose.Reauth?) && FactorsOf(t.factors, t.sessions[s].user) != {} then
      Challenged(t, t.sessions[s].user, purpose, Some(s), origin)
    else (t, Refused)
  }

  /** Who enrols a factor: the holder of a bootstrap challenge, or a session
      that has just confirmed its identity. */
  datatype Enroller = ByChallenge(c: Id) | BySession(s: Id, recent: bool)

  predicate MayEnroll(t: Tables, who: Enroller) {
    match who
    case ByChallenge(c) =>
      Loadable(t, c, None) && t.challenges[c].purpose.Bootstrap? && FactorsOf(t.factors, t.challenges[c].user) == {}
    case BySession(s, recent) => Authentic(t, s) && recent
  }

  /** beginMFAEnrollment. */
  function BeginEnrollment(t: Tables, who: Enroller, kind: Kind, origin: bool): (Tables, Reply) {
    if !MayEnroll(t, who) then (t, Refused)
    else
      var u := if who.ByChallenge? then t.challenges[who.c].user else t.sessions[who.s].user;
      var session := if who.ByChallenge? then None else Some(who.s);
      var t1 := if who.ByChallenge? then DropChallenges(t, {who.c}) else t;
      if |FactorsOf(t.factors, u)| >= MAX_FACTORS || (kind.Totp? && HasTotp(t.factors, u)) then (t, Refused)
      else if kind.Totp? then
        (StoreFlow(AddSecret(t1, Some(t.now + MFA_TTL)), u, session, EnrollTotp, Some(t.next), false),
          Issued(t.next + 1))
      else if origin then (StoreFlow(t1, u, session, EnrollWebAuthn, None, true), Issued(t.next))
      else (t, Refused)
  }

  /** verifyMFAProof spends what it accepted. */
  function Spend(t: Tables, proof: Proof): Tables {
    match proof
    case TotpCode(f, counter) => if f in t.factors then
      t.(factors := t.factors[f := t.factors[f].(last := counter)]) else t
    case RecoveryCode(d) => t.(codes := t.codes - {d})
    case Assertion(f, _) => t.(secrets := t.secrets[f := Secret(None)])
    case Attestation(_) => t
  }

  predicate Enrolling(t: Tables, c: Id, proof: Proof) {
    && c in t.challenges && t.challenges[c].user in t.users
    && (t.challenges[c].purpose.EnrollTotp? ==> t.challenges[c].secret.Some? && proof.TotpCode?)
    && (t.challenges[c].session.Some? ==> t.challenges[c].session.value in t.sessions)
  }

  /** The factor that an enrolment activates: its pending secret, or a new one. */
  function NewFactor(t: Tables, c: Id): Id
    requires c in t.challenges && (t.challenges[c].purpose.EnrollTotp? ==> t.challenges[c].secret.Some?)
  {
    if t.challenges[c].purpose.EnrollTotp? then t.challenges[c].secret.value else t.next
  }

  /** activateMFA up to the sessions: the challenge is spent, the factor is
      added, and a first factor brings recovery codes. */
  function Activated(t: Tables, c: Id, proof: Proof): (r: Tables)
    requires Enrolling(t, c, proof)
    ensures r.users.Keys == t.users.Keys
  {
    var ch := t.challenges[c];
    var totp := ch.purpose.EnrollTotp?;
    var t0 := DropChallenges(t, {c});
    var t1 := if totp then t0 else AddSecret(t0, None);
    var t2 := AddFactor(t1, NewFactor(t, c), ch.user, if totp then Totp else WebAuthn, if totp then proof.counter
      else 0);
    if FactorsOf(t.factors, ch.user) == {} then ReplaceCodes(t2, ch.user) else t2
  }

  /** activateMFA and what mfaVerify does after it: a session that enrolled is
      replaced by a verified one, which is then the user's only session. */
  function Activate(t: Tables, c: Id, proof: Proof): (Tables, Reply)
    requires Enrolling(t, c, proof)
  {
    var ch := t.challenges[c];
    var t1 := Activated(t, c, proof);
    var signIn := if ch.session.None? then Local else t.sessions[ch.session.value].signIn;
    var t2 := if ch.session.None? then t1 else DropSessions(t1, SessionsOf(t1.sessions, ch.user));
    (NewSession(t2, ch.user, signIn, true), Enrolled(NewFactor(t, c), t2.next))
  }

  /** Whether checking a TOTP code fails on the secret it has to be checked with. */
  predicate Unreadable(t: Tables, ch: Challenge, proof: Proof) {
    && proof.TotpCode?
    && match ch.purpose
       case EnrollTotp => ch.secret.Some? && !Readable(t, ch.secret.value)
       case EnrollWebAuthn => false
       case _ => exists f ::
           f in t.factors && t.factors[f].user == ch.user && t.factors[f].kind.Totp? && !Readable(t, f)
  }

  /** mfaVerify. A wrong proof is the one refusal that commits. */
  function Verify(t: Tables, c: Id, proof: Proof, caller: Option<Id>): (Tables, Reply) {
    if !Loadable(t, c, caller) || t.challenges[c].purpose.Bootstrap? || Unreadable(t, t.challenges[c], proof) then
      (t, Refused)
    else
      var ch := t.challenges[c];
      if !Proves(t, ch, proof) then
        (t.(challenges := t.challenges[c := ch.(attempts := ch.attempts + 1)]), Failed)
      else if ch.purpose.EnrollTotp? || ch.purpose.EnrollWebAuthn? then
        if |FactorsOf(t.factors, ch.user)| >= MAX_FACTORS then (t, Refused) else Activate(t, c, proof)
      else
        var t1 := DropChallenges(Spend(t, proof), {c});
        if ch.purpose.Login? then (NewSession(t1, ch.user, Local, true), SignedIn(t1.next)) else (t1, Granted)
  }

  /** mfaRemove. */
  function Remove(t: Tables, s: Id, f: Id, ifMatch: Id, recent: bool): (Tables, Reply) {
    if !Authentic(t, s) || !recent then (t, Refused)
    else
      var u := t.sessions[s].user;
      var last := |FactorsOf(t.factors, u)| <= 1;
      if ifMatch != t.users[u].mfaRevision || (t.mfaRequired && last) || f !in t.factors || t.factors[f].user != u then
        (t, Refused)
      else
        var t1 := RemoveFactor(t, f);
        var t2 := if last then Unverify(t1, u) else t1;
        (DropSessions(t2, SessionsOf(t2.sessions, u) - {s}), Done)
  }

  /** mfaRecovery. */
  function RotateCodes(t: Tables, s: Id, ifMatch: Id, recent: bool): (Tables, Reply) {
    if !Authentic(t, s) || !recent then (t, Refused)
    else
      var u := t.sessions[s].user;
      if ifMatch != t.users[u].mfaRevision || FactorsOf(t.factors, u) == {} then (t, Refused)
      else (FreshRevision(ReplaceCodes(t, u), u), Done)
  }

  /** The secrets RecoverPassword collects when it resets MFA. */
  function OwnedSecrets(t: Tables, u: Id): set<Id> {
    FactorsOf(t.factors, u) + set c | c in t.challenges && t.challenges[c].user == u && t.challenges[c].secret.Some? ::
        t.challenges[c].secret.value
  }

  /** RecoverPassword. */
  function Recover(t: Tables, u: Id, reset: bool): (Tables, Reply) {
    if u !in t.users || !t.users[u].active then (t, Refused)
    else
      var t1 := ChangeUser(t, u, t.users[u].(password := true), false);
      if !reset then (t1, Done)
      else
        var gone := OwnedSecrets(t1, u);
        var t2 := DropCodes(DropChallenges(t1, ChallengesOf(t1.challenges, u)), u);
        var t3 := FreshRevision(t2.(factors := t2.factors - FactorsOf(t2.factors, u)), u);
        (DropSecrets(t3, gone), Done)
  }

  // What else changes these tables.

  /** Any handler of another file that writes a user: the row changes in every
      way but its MFA revision, under a fresh entity tag. */
  function ChangeUser(t: Tables, u: Id, row: User, keepSessions: bool): Tables
    requires u in t.users
  {
    var t1 := t.(next := t.next + 1,
      users := t.users[u := row.(etag := t.next, mfaRevision := t.users[u].mfaRevision)]);
    if keepSessions then t1 else DropSessions(t1, SessionsOf(t1.sessions, u))
  }

  /** Password changes and unlinking replace all of a user's sessions by one of
      the same strength as the session that asked. */
  function RotateSession(t: Tables, s: Id): Tables
    requires s in t.sessions && t.sessions[s].user in t.users
  {
    var asked := t.sessions[s];
    NewSession(ChangeUser(t, asked.user, t.users[asked.user], false), asked.user, asked.signIn, asked.mfa)
  }

  /** Rows whose time is over, which sweeps delete in any portion and order. */
  function Expired(t: Tables): (set<Id>, set<Id>, set<Id>) {
    (set s | s in t.sessions && t.sessions[s].expires <= t.now,
     set c | c in t.challenges && t.challenges[c].expires <= t.now,
     set x | x in t.secrets && t.secrets[x].expires.Some? && t.secrets[x].expires.value <= t.now)
  }

  datatype Request =
    | SignIn(user: Id, origin: bool)
    | Ask(session: Id, purpose: Purpose, origin: bool)
    | Begin(who: Enroller, kind: Kind, origin: bool)
    | Check(challenge: Id, proof: Proof, caller: Option<Id>)
    | Delete(session: Id, factor: Id, ifMatch: Id, recent: bool)
    | Renew(session: Id, ifMatch: Id, recent: bool)
    | Reset(user: Id, mfa: bool)
    | Write(user: Id, row: User, keepSessions: bool)
    | Replace(session: Id)
    | Federated(user: Id, how: Kernel.SignIn)
    | Join(row: User)
    | Settings(localLogin: bool, mfaRequired: bool)
    | Sweep(sessions: set<Id>, challenges: set<Id>, secrets: set<Id>)
    | Wait(until: Time)

  function Step(t: Tables, r: Request): (Tables, Reply) {
    match r
    case SignIn(u, origin) => LocalSession(t, u, origin)
    case Ask(s, purpose, origin) => SessionChallenge(t, s, purpose, origin)
    case Begin(who, kind, origin) => BeginEnrollment(t, who, kind, origin)
    case Check(c, proof, caller) => Verify(t, c, proof, caller)
    case Delete(s, f, ifMatch, recent) => Remove(t, s, f, ifMatch, recent)
    case Renew(s, ifMatch, recent) => RotateCodes(t, s, ifMatch, recent)
    case Reset(u, mfa) => Recover(t, u, mfa)
    case Write(u, row, keep) => if u in t.users then (ChangeUser(t, u, row, keep), Done) else (t, Refused)
    case Replace(s) => if Authentic(t, s) then (RotateSession(t, s), SignedIn(t.next + 1)) else (t, Refused)
    case Federated(u, how) => if u in t.users && !how.Local? then (NewSession(t, u, how, false), SignedIn(t.next))
      else (t, Refused)
    case Join(row) => (t.(next := t.next + 3,
      users := t.users[t.next := row.(etag := t.next + 1, mfaRevision := t.next + 2)]), Done)
    case Settings(login, required) => (t.(localLogin := login, mfaRequired := required), Done)
    case Sweep(sessions, challenges, secrets) =>
      var (s, c, x) := Expired(t);
      (DropSecrets(DropChallenges(DropSessions(t, sessions * s), challenges * c), secrets * x), Done)
    case Wait(until) => (t.(now := if until > t.now then until else t.now), Done)
  }
}
