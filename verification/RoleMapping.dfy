/** Roles from an identity provider's claims: mappedRole, oidcSignInRole,
    samlSignInRole and syncFederatedAuthority of internal/access. Case-insensitive
    comparison is equality after folding, for any folding function. */
module RoleMapping {
  import opened Common
  import opened Kernel

  datatype Mapping = Mapping(claim: string, role: Role)

  datatype Policy = Policy(emails: seq<Mapping>, groups: seq<Mapping>, default: Option<Role>)

  type Folding = string -> string

  function Rank(r: Option<Role>): nat {
    match r
    case None => 0
    case Some(Viewer) => 1
    case Some(Developer) => 2
    case Some(Operator) => 3
    case Some(Owner) => 4
  }

  predicate Names(fold: Folding, m: Mapping, address: string) {
    fold(m.claim) == fold(address)
  }

  /** The role of the first mapping that names the address. */
  function ByEmail(fold: Folding, emails: seq<Mapping>, address: string): Option<Role> {
    if emails == [] then None
    else if Names(fold, emails[0], address) then Some(emails[0].role)
    else ByEmail(fold, emails[1..], address)
  }

  /** The best role of the mappings that name one of the groups. */
  function ByGroup(mappings: seq<Mapping>, groups: seq<string>): Option<Role> {
    if mappings == [] then None
    else
      var best, m := ByGroup(mappings[..|mappings| - 1], groups), mappings[|mappings| - 1];
      if m.claim in groups && Rank(Some(m.role)) > Rank(best) then Some(m.role) else best
  }

  function Mapped(fold: Folding, p: Policy, address: string, groups: seq<string>): Option<Role> {
    if ByEmail(fold, p.emails, address).Some? then ByEmail(fold, p.emails, address)
    else if ByGroup(p.groups, groups).Some? then ByGroup(p.groups, groups)
    else p.default
  }

  method MappedRole(fold: Folding, p: Policy, address: string, groups: seq<string>) returns (r: Option<Role>)
    ensures r == Mapped(fold, p, address, groups)
  {
    for i := 0 to |p.emails|
      invariant ByEmail(fold, p.emails, address) == ByEmail(fold, p.emails[i..], address)
    {
      if Names(fold, p.emails[i], address) {
        return Some(p.emails[i].role);
      }
    }
    var selected: Option<Role> := None;
    for i := 0 to |p.groups|
      invariant selected == ByGroup(p.groups[..i], groups)
    {
      assert p.groups[..i + 1][..i] == p.groups[..i];
      var m := p.groups[i];
      if m.claim in groups && Rank(Some(m.role)) > Rank(selected) {
        selected := Some(m.role);
      }
    }
    assert p.groups[..|p.groups|] == p.groups;
    r := if selected.Some? then selected else p.default;
  }

  /** What validation of a configuration demands of its mappings. */
  predicate Validated(fold: Folding, p: Policy) {
    && (forall i, j :: 0 <= i < j < |p.emails| ==> fold(p.emails[i].claim) != fold(p.emails[j].claim))
    && (forall i, j :: 0 <= i < j < |p.groups| ==> p.groups[i].claim != p.groups[j].claim)
  }

  /** The decision, with no word about order. */
  predicate Decides(fold: Folding, p: Policy, address: string, groups: seq<string>, r: Option<Role>) {
    if exists m :: m in p.emails && Names(fold, m, address) then
      exists m :: m in p.emails && Names(fold, m, address) && r == Some(m.role)
    else if exists m :: m in p.groups && m.claim in groups then
      && (exists m :: m in p.groups && m.claim in groups && r == Some(m.role))
      && (forall m :: m in p.groups && m.claim in groups ==> Rank(Some(m.role)) <= Rank(r))
    else r == p.default
  }

  lemma {:induction false} ByEmailFinds(fold: Folding, emails: seq<Mapping>, address: string)
    ensures ByEmail(fold, emails, address).Some? <==> exists m :: m in emails && Names(fold, m, address)
    ensures ByEmail(fold, emails, address).Some? ==>
              exists m :: m in emails && Names(fold, m, address) && ByEmail(fold, emails, address) == Some(m.role)
  {
    if emails != [] {
      ByEmailFinds(fold, emails[1..], address);
      assert emails[0] in emails;
      assert forall m :: m in emails ==> m == emails[0] || m in emails[1..];
      assert forall m :: m in emails[1..] ==> m in emails;
    }
  }

  lemma {:induction false} ByGroupIsBest(mappings: seq<Mapping>, groups: seq<string>)
    ensures ByGroup(mappings, groups).Some? <==> exists m :: m in mappings && m.claim in groups
    ensures ByGroup(mappings, groups).Some? ==>
              exists m :: m in mappings && m.claim in groups && ByGroup(mappings, groups) == Some(m.role)
    ensures forall m :: m in mappings && m.claim in groups ==> Rank(Some(m.role)) <= Rank(ByGroup(mappings, groups))
  {
    if mappings != [] {
      var front, last := mappings[..|mappings| - 1], mappings[|mappings| - 1];
      ByGroupIsBest(front, groups);
      assert last in mappings;
      assert forall m :: m in mappings <==> m in front || m == last;
    }
  }

  lemma MappedDecides(fold: Folding, p: Policy, address: string, groups: seq<string>)
    ensures Decides(fold, p, address, groups, Mapped(fold, p, address, groups))
  {
    hide ByEmail, ByGroup, Names;
    ByEmailFinds(fold, p.emails, address);
    ByGroupIsBest(p.groups, groups);
  }

  lemma OneEmailMapping(fold: Folding, p: Policy, address: string, m: Mapping, n: Mapping)
    requires Validated(fold, p) && m in p.emails && n in p.emails && Names(fold, m, address) && Names(fold, n, address)
    ensures m == n
  {
    var i :| 0 <= i < |p.emails| && p.emails[i] == m;
    var j :| 0 <= j < |p.emails| && p.emails[j] == n;
    assert !(i < j) && !(j < i);
  }

  lemma RankIsInjective(a: Option<Role>, b: Option<Role>)
    requires Rank(a) == Rank(b)
    ensures a == b
  {
  }

  /** Under a validated policy there is one decision. */
  lemma DecisionIsUnique(fold: Folding, p: Policy, address: string, groups: seq<string>, r: Option<Role>,
      s: Option<Role>)
    requires Validated(fold, p) && Decides(fold, p, address, groups, r) && Decides(fold, p, address, groups, s)
    ensures r == s
  {
    hide Rank, Names, Validated;
    if exists m :: m in p.emails && Names(fold, m, address) {
      var m :| m in p.emails && Names(fold, m, address) && r == Some(m.role);
      var n :| n in p.emails && Names(fold, n, address) && s == Some(n.role);
      OneEmailMapping(fold, p, address, m, n);
    } else if exists m :: m in p.groups && m.claim in groups {
      RankIsInjective(r, s);
    }
  }

  /** The same mappings and groups, in any order and however often repeated. */
  ghost predicate SamePolicy(p: Policy, q: Policy) {
    && (forall m :: m in p.emails <==> m in q.emails)
    && (forall m :: m in p.groups <==> m in q.groups)
    && p.default == q.default
  }

  /** Under a validated policy the mapped role does not depend on the order of
      mappings or groups. */
  lemma MappedIgnoresOrder(fold: Folding, p: Policy, q: Policy, address: string, groups: seq<string>,
      groups': seq<string>)
    requires Validated(fold, p) && SamePolicy(p, q) && forall g :: g in groups <==> g in groups'
    ensures Mapped(fold, p, address, groups) == Mapped(fold, q, address, groups')
  {
    hide Mapped, Validated, Rank, Names;
    MappedDecides(fold, p, address, groups);
    MappedDecides(fold, q, address, groups');
    assert Decides(fold, p, address, groups, Mapped(fold, q, address, groups'));
    DecisionIsUnique(fold, p, address, groups, Mapped(fold, p, address, groups), Mapped(fold, q, address, groups'));
  }

  /** Validation is what makes it so: with two mappings for one address the
      order decides. */
  lemma UnvalidatedOrderMatters(fold: Folding, address: string)
    ensures var m, n := Mapping(address, Owner), Mapping(address, Viewer);
            && SamePolicy(Policy([m, n], [], None), Policy([n, m], [], None))
            && Mapped(fold, Policy([m, n], [], None), address, []) != Mapped(fold, Policy([n, m], [], None), address,
               [])
  {
  }

  // Predicting what the next sign-in would leave.

  datatype OidcConfig = OidcConfig(
    enabled: bool, issuer: string, client: string, hasSecret: bool,
    scopes: seq<string>, emailClaim: string, groupsClaim: string, policy: Policy)

  /** The verified claims recorded at a sign-in. */
  datatype OidcClaims = OidcClaims(
    client: string, scopes: seq<string>, emailClaim: string, groupsClaim: string, email: string, groups: seq<string>)

  /** Whether a sign-in with the configuration as it is now would again yield
      claims like these. */
  predicate Matches(c: OidcConfig, claims: OidcClaims) {
    && c.hasSecret
    && claims.client == c.client && claims.emailClaim == c.emailClaim && claims.groupsClaim == c.groupsClaim
    && claims.scopes != [] && forall s :: s in claims.scopes ==> s in c.scopes
  }

  function OidcSignInRole(fold: Folding, c: OidcConfig, locallyManaged: bool, role: Role,
      data: Option<OidcClaims>): Option<Role> {
    if data.None? || !Matches(c, data.value) then None
    else if locallyManaged then Some(role)
    else Mapped(fold, c.policy, data.value.email, data.value.groups)
  }

  /** Metadata and certificates are good for stretches of time. */
  datatype SamlConfig = SamlConfig(
    enabled: bool, entity: string, emailAttribute: string, groupsAttribute: string,
    validUntil: Option<Time>, certificates: seq<(Time, Time)>, policy: Policy)

  datatype SamlFacts = SamlFacts(emailAttribute: string, groupsAttribute: string, email: string, groups: seq<string>)

  /** validateSAML, as far as the clock is concerned. */
  predicate InDate(c: SamlConfig, now: Time) {
    c.enabled ==>
      && (c.validUntil.Some? ==> c.validUntil.value > now)
      && exists k :: 0 <= k < |c.certificates| && c.certificates[k].0 <= now <= c.certificates[k].1
  }

  function SamlSignInRole(fold: Folding, c: SamlConfig, managed: Management, role: Role,
      data: Option<SamlFacts>): Option<Role> {
    if !c.enabled || data.None? || data.value.emailAttribute != c.emailAttribute
      || data.value.groupsAttribute != c.groupsAttribute then None
    else if managed != BySaml then Some(role)
    else Mapped(fold, c.policy, data.value.email, data.value.groups)
  }

  datatype Sync = Sync(changed: bool, allowed: bool, role: Role, authorized: bool)

  /** What syncFederatedAuthority decides for a user and a mapped role. */
  function Synced(u: User, mapped: Option<Role>, source: Management): Sync {
    if u.management != source then Sync(false, true, u.role, u.authorized)
    else
      var allowed := mapped.Some?;
      if allowed == u.authorized && (!allowed || mapped.value == u.role) then Sync(false, allowed, u.role, u.authorized)
      else Sync(true, allowed, if allowed then mapped.value else u.role, allowed)
  }

  /** The prediction is faithful: on claims that still match, oidcSignInRole is
      the role that signing in with them would leave, and no role when signing
      in would be denied. */
  lemma OidcPredictionIsFaithful(fold: Folding, c: OidcConfig, u: User, claims: OidcClaims)
    requires Matches(c, claims)
    ensures var predicted := OidcSignInRole(fold, c, u.management != ByOidc, u.role, Some(claims));
            var after := Synced(u, Mapped(fold, c.policy, claims.email, claims.groups), ByOidc);
            && (predicted.Some? <==> after.allowed)
            && (predicted.Some? ==> after.role == predicted.value && (u.management == ByOidc ==> after.authorized))
            && (predicted.None? ==> !after.authorized)
  {
    hide Mapped;
  }

  lemma SamlPredictionIsFaithful(fold: Folding, c: SamlConfig, u: User, facts: SamlFacts)
    requires c.enabled && facts.emailAttribute == c.emailAttribute && facts.groupsAttribute == c.groupsAttribute
    ensures var predicted := SamlSignInRole(fold, c, u.management, u.role, Some(facts));
            var after := Synced(u, Mapped(fold, c.policy, facts.email, facts.groups), BySaml);
            && (predicted.Some? <==> after.allowed)
            && (predicted.Some? ==> after.role == predicted.value && (u.management == BySaml ==> after.authorized))
            && (predicted.None? ==> !after.authorized)
  {
    hide Mapped;
  }

  /** Signing in twice with the same claims changes nothing the second time. */
  lemma SyncSettles(u: User, mapped: Option<Role>, source: Management)
    ensures var first := Synced(u, mapped, source);
            var second := Synced(u.(role := first.role, authorized := first.authorized), mapped, source);
            !second.changed && second.allowed == first.allowed && second.role == first.role
              && second.authorized == first.authorized
  {
  }
}
