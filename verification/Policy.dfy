/** Management authorization: the policy table and Authorize of policy.go, the
    contract's requirements of contract.go, and the principals of principal.go,
    scope.go and organizations.go in internal/access. */
module Policy {
  import opened Common
  import opened Kernel

  datatype Operation =
    | Read | Usage | Keys | Playground | Configure | Settings | AccessRead | Access | Self
    | ManageSessions | ManageTokens | ManageProjects | LocalLogin | ManagePlugins | ManageOrganization

  /** Every operation, in the order of its number. */
  const OPERATIONS: seq<Operation> :=
    [Read, Usage, Keys, Playground, Configure, Settings, AccessRead, Access, Self,
     ManageSessions, ManageTokens, ManageProjects, LocalLogin, ManagePlugins, ManageOrganization]

  datatype Rule = Rule(name: string, roles: set<Role>, installation: bool, delegable: bool)

  const EVERYONE: set<Role> := {Owner, Operator, Developer, Viewer}

  function RuleOf(op: Operation): Rule {
    match op
    case ManageOrganization => Rule("manage_organization", {Owner, Operator, Developer}, false, true)
    case Read => Rule("read", EVERYONE, false, true)
    case Usage => Rule("usage", EVERYONE, false, true)
    case Keys => Rule("keys", {Owner, Operator, Developer}, false, true)
    case Playground => Rule("playground", {Owner, Operator, Developer}, false, true)
    case Configure => Rule("configure", {Owner, Operator}, false, true)
    case Settings => Rule("settings", {Owner, Operator}, true, true)
    case AccessRead => Rule("access_read", {Owner, Operator}, true, true)
    case Access => Rule("access", {Owner}, true, true)
    case Self => Rule("self", EVERYONE, false, false)
    case ManageSessions => Rule("manage_sessions", {Owner}, true, false)
    case ManageTokens => Rule("manage_tokens", {Owner}, true, false)
    case ManageProjects => Rule("manage_projects", {Owner}, true, true)
    case LocalLogin => Rule("local_login", {Owner}, true, false)
    case ManagePlugins => Rule("manage_plugins", {Owner}, true, false)
  }

  function NameOf(op: Operation): string {
    RuleOf(op).name
  }

  lemma NamesDiffer(a: Operation, b: Operation)
    requires NameOf(a) == NameOf(b)
    ensures a == b
  {
    var x, y := NameOf(a), NameOf(b);
    assert |x| == |y| && (|x| > 0 ==> x[0] == y[0]) && (|x| > 7 ==> x[7] == y[7]);
  }

  /** ParseOperation finds the operation of a name, and only that one. */
  method ParseOperation(name: string) returns (op: Option<Operation>)
    ensures op.Some? ==> NameOf(op.value) == name
    ensures op.None? ==> forall o: Operation :: NameOf(o) != name
  {
    hide NameOf;
    for i := 0 to |OPERATIONS|
      invariant forall k :: 0 <= k < i ==> NameOf(OPERATIONS[k]) != name
    {
      if NameOf(OPERATIONS[i]) == name {
        return Some(OPERATIONS[i]);
      }
    }
    forall o: Operation ensures NameOf(o) != name {
      Listed(o);
    }
    return None;
  }

  lemma Listed(o: Operation)
    ensures exists k :: 0 <= k < |OPERATIONS| && OPERATIONS[k] == o
  {
    var k :=
      match o
      case Read => 0 case Usage => 1 case Keys => 2 case Playground => 3 case Configure => 4 case Settings => 5
      case AccessRead => 6 case Access => 7 case Self => 8 case ManageSessions => 9 case ManageTokens => 10
      case ManageProjects => 11 case LocalLogin => 12 case ManagePlugins => 13 case ManageOrganization => 14;
    assert OPERATIONS[k] == o;
  }

  /** The operation of a name: the first of these that has it. */
  function FirstNamed(ops: seq<Operation>, name: string): (op: Option<Operation>)
    ensures op.Some? ==> NameOf(op.value) == name
    ensures op.None? ==> forall o :: o in ops ==> NameOf(o) != name
  {
    if ops == [] then None else if NameOf(ops[0]) == name then Some(ops[0]) else FirstNamed(ops[1..], name)
  }

  function Named(name: string): Option<Operation> {
    FirstNamed(OPERATIONS, name)
  }

  /** Naming and parsing undo each other. */
  lemma NamedIsInverse(op: Operation, name: string)
    ensures Named(NameOf(op)) == Some(op)
    ensures Named(name) == Some(op) <==> name == NameOf(op)
  {
    hide NameOf, FirstNamed;
    Listed(op);
    NamesDiffer(Named(NameOf(op)).value, op);
  }

  // Principals.

  datatype Member = Viewing | Managing

  datatype Principal =
    | User(id: Id, role: Role, allProjects: bool, projects: map<Id, Member>, organizations: map<Id, Member>)
    | Machine(id: Id, creator: Id, creatorRole: Role, scopes: set<Operation>, allProjects: bool,
              projects: map<Id, Member>, organizations: map<Id, Member>)
    | InferenceKey(modelsRead: bool)

  predicate Authorize(p: Principal, op: Operation) {
    match p
    case InferenceKey(modelsRead) => op == Read && modelsRead
    case User(_, role, all, _, _) => role in RuleOf(op).roles && (RuleOf(op).installation ==> all)
    case Machine(_, _, role, scopes, all, _, _) =>
      RuleOf(op).delegable && op in scopes && role in RuleOf(op).roles && (RuleOf(op).installation ==> all)
  }

  datatype Need = View | Change

  /** Principal.Project; None is the unassigned boundary. */
  predicate ReachesProject(p: Principal, project: Option<Id>, need: Need) {
    && !p.InferenceKey?
    && (p.allProjects
       || (project.Some? && project.value in p.projects && (need == Change ==> p.projects[project.value] == Managing)))
  }

  /** Principal.Organization. */
  predicate ReachesOrganization(p: Principal, organization: Id, need: Need) {
    && !p.InferenceKey?
    && ((p.allProjects && (need == View || Authorize(p, Access)))
        || (organization in p.organizations && (need == Change ==> p.organizations[organization] == Managing)))
  }

  // Where principals come from.

  datatype Account = Account(role: Role, active: bool, authorized: bool, scope: Scope)

  /** olp.management_tokens; `live` is whether it is neither expired nor revoked. */
  datatype Token = Token(creator: Id, scopes: seq<string>, allProjects: bool, projects: seq<Id>, live: bool)

  datatype Tables = Tables(
    accounts: map<Id, Account>, sessions: map<Id, Id>, tokens: map<Id, Token>,
    projects: map<Id, map<Id, Member>>, organizations: map<Id, map<Id, Member>>)

  function MembershipsOf(of: map<Id, map<Id, Member>>, u: Id): map<Id, Member> {
    if u in of then of[u] else map[]
  }

  predicate InForce(t: Tables, u: Id) {
    u in t.accounts && t.accounts[u].active && t.accounts[u].authorized
  }

  /** A signed-in member, as Authenticate resolves one. */
  function MemberOf(t: Tables, u: Id): Principal
    requires u in t.accounts
  {
    Principal.User(u, t.accounts[u].role, t.accounts[u].scope == Global, MembershipsOf(t.projects, u),
      MembershipsOf(t.organizations, u))
  }

  /** The scopes that are names of operations. */
  function Scopes(names: seq<string>): set<Operation> {
    if names == [] then {}
    else
      var op := Named(names[|names| - 1]);
      Scopes(names[..|names| - 1]) + if op.Some? then {op.value} else {}
  }

  /** The projects of a token that is not installation-wide. */
  function Narrowed(global: bool, memberships: map<Id, Member>, ids: seq<Id>): map<Id, Member> {
    if ids == [] then map[]
    else
      var before, id := Narrowed(global, memberships, ids[..|ids| - 1]), ids[|ids| - 1];
      if global then before[id := Managing] else if id in memberships then before[id := memberships[id]] else before
  }

  /** machinePrincipal. */
  function MachineOf(t: Tables, k: Id): Option<Principal> {
    if k !in t.tokens || !t.tokens[k].live || !InForce(t, t.tokens[k].creator) then None
    else
      var token := t.tokens[k];
      var u := token.creator;
      var global := t.accounts[u].scope == Global;
      var organizations := if token.allProjects then MembershipsOf(t.organizations, u) else map[];
      var all := token.allProjects && global;
      var memberships := MembershipsOf(t.projects, u);
      var projects := if all then map[] else if token.allProjects then memberships
        else Narrowed(global, memberships, token.projects);
      Some(Machine(k, u, t.accounts[u].role, Scopes(token.scopes), all, projects, organizations))
  }

  /** The keys of a map, in whatever order it is iterated. */
  method KeysOf(m: map<Id, Member>) returns (ids: seq<Id>)
    ensures forall id :: id in ids <==> id in m
  {
    ids := [];
    var rest := m.Keys;
    while rest != {}
      invariant rest <= m.Keys
      invariant forall id :: id in ids <==> id in m && id !in rest
      decreases rest
    {
      var id :| id in rest;
      ids := ids + [id];
      rest := rest - {id};
    }
  }

  lemma {:induction false} NarrowedKeepsListed(memberships: map<Id, Member>, ids: seq<Id>)
    ensures var n := Narrowed(false, memberships, ids);
            && (forall id :: id in n <==> id in ids && id in memberships) && forall id ::
                 id in n ==> n[id] == memberships[id]
  {
    if ids != [] {
      NarrowedKeepsListed(memberships, ids[..|ids| - 1]);
      assert forall id :: id in ids <==> id in ids[..|ids| - 1] || id == ids[|ids| - 1];
    }
  }

  /** The scope loop of machinePrincipal. */
  method ReadTokenScopes(names: seq<string>) returns (scopes: set<Operation>)
    ensures scopes == Scopes(names)
  {
    hide NameOf, Named;
    scopes := {};
    for i := 0 to |names|
      invariant scopes == Scopes(names[..i])
    {
      assert names[..i + 1][..i] == names[..i];
      var op := ParseOperation(names[i]);
      ParsedIsNamed(names[i], op);
      if op.Some? { scopes := scopes + {op.value}; }
    }
    assert names[..|names|] == names;
  }

  /** machinePrincipal as it runs. */
  method BuildMachine(t: Tables, k: Id) returns (p: Option<Principal>)
    ensures p == MachineOf(t, k)
  {
    hide Scopes;
    if k !in t.tokens || !t.tokens[k].live || !InForce(t, t.tokens[k].creator) { return None; }
    var token := t.tokens[k];
    var u := token.creator;
    var scopes := ReadTokenScopes(token.scopes);
    var organizations := if token.allProjects then MembershipsOf(t.organizations, u) else map[];
    var global := t.accounts[u].scope == Global;
    if token.allProjects && global {
      return Some(Machine(k, u, t.accounts[u].role, scopes, true, map[], organizations));
    }
    var memberships := MembershipsOf(t.projects, u);
    var ids := KeysOf(memberships);
    if !token.allProjects {
      ids := token.projects;
    }
    var projects: map<Id, Member> := map[];
    for i := 0 to |ids|
      invariant projects == Narrowed(global, memberships, ids[..i])
    {
      assert ids[..i + 1][..i] == ids[..i];
      if global {
        projects := projects[ids[i] := Managing];
      } else if ids[i] in memberships {
        projects := projects[ids[i] := memberships[ids[i]]];
      }
    }
    assert ids[..|ids|] == ids;
    if token.allProjects {
      NarrowedKeepsListed(memberships, ids);
      assert projects == memberships;
    }
    return Some(Machine(k, u, t.accounts[u].role, scopes, false, projects, organizations));
  }

  lemma ParsedIsNamed(name: string, op: Option<Operation>)
    requires op.Some? ==> NameOf(op.value) == name
    requires op.None? ==> forall o: Operation :: NameOf(o) != name
    ensures op == Named(name)
  {
    hide NameOf;
    if op.Some? {
      NamedIsInverse(op.value, name);
    }
  }

  // A token stays within its creator.

  /** A management token never authorizes an operation that its creator lacks now. */
  lemma TokenOperationsWithinCreator(t: Tables, k: Id, op: Operation)
    requires MachineOf(t, k).Some? && Authorize(MachineOf(t, k).value, op)
    ensures var u := t.tokens[k].creator; InForce(t, u) && Authorize(MemberOf(t, u), op) && RuleOf(op).delegable
  {
    hide RuleOf, Scopes, Narrowed;
  }

  /** Nor does it reach a project or an organization that its creator does not. */
  lemma TokenReachWithinCreator(t: Tables, k: Id, project: Option<Id>, organization: Id, need: Need)
    requires MachineOf(t, k).Some?
    ensures var p := MachineOf(t, k).value; var u := t.tokens[k].creator;
            && (ReachesProject(p, project, need) ==> ReachesProject(MemberOf(t, u), project, need))
            && (ReachesOrganization(p, organization, need) ==> ReachesOrganization(MemberOf(t, u), organization, need))
  {
    hide RuleOf, Scopes, Narrowed;
    var token := t.tokens[k];
    NarrowedKeepsListed(MembershipsOf(t.projects, token.creator), token.projects);
    if Authorize(MachineOf(t, k).value, Access) {
      TokenOperationsWithinCreator(t, k, Access);
    }
  }

  /** An assigned creator narrows the token to their own projects and roles, and
      a token limited to projects reaches no other and no organization. */
  lemma TokenProjects(t: Tables, k: Id, id: Id)
    requires MachineOf(t, k).Some? && id in MachineOf(t, k).value.projects
    ensures var p := MachineOf(t, k).value; var u := t.tokens[k].creator;
            t.accounts[u].scope == Assigned ==>
                id in MembershipsOf(t.projects, u) && p.projects[id] == MembershipsOf(t.projects, u)[id]
  {
    hide Scopes, Narrowed;
    var token := t.tokens[k];
    NarrowedKeepsListed(MembershipsOf(t.projects, token.creator), token.projects);
  }

  lemma ProjectTokenReachesNoOrganization(t: Tables, k: Id, organization: Id, need: Need)
    requires MachineOf(t, k).Some? && !t.tokens[k].allProjects
    ensures !ReachesOrganization(MachineOf(t, k).value, organization, need)
  {
    hide RuleOf, Scopes, Narrowed;
  }

  // What a route demands.

  datatype Kind = UserKind | MachineKind | KeyKind

  datatype Alternative = Alternative(kind: Kind, operations: seq<Operation>, installation: bool)

  datatype Requirement = Requirement(public: bool, alternatives: seq<Alternative>)

  function KindOf(p: Principal): Kind {
    match p
    case User(_, _, _, _, _) => UserKind
    case Machine(_, _, _, _, _, _, _) => MachineKind
    case InferenceKey(_) => KeyKind
  }

  predicate InstallationWide(p: Principal) {
    !p.InferenceKey? && p.allProjects
  }

  predicate Satisfies(p: Principal, a: Alternative) {
    && a.kind == KindOf(p) && (a.installation ==> InstallationWide(p))
    && forall op :: op in a.operations ==> Authorize(p, op)
  }

  predicate Admitted(req: Requirement, p: Principal) {
    exists a :: a in req.alternatives && Satisfies(p, a)
  }

  method Admits(req: Requirement, p: Principal) returns (ok: bool)
    ensures ok == Admitted(req, p)
  {
    hide Authorize;
    for i := 0 to |req.alternatives|
      invariant forall k :: 0 <= k < i ==> !Satisfies(p, req.alternatives[k])
    {
      var a := req.alternatives[i];
      if a.kind == KindOf(p) {
        var allowed, j := true, 0;
        while j < |a.operations| && allowed
          invariant 0 <= j <= |a.operations|
          invariant allowed ==> forall k :: 0 <= k < j ==> Authorize(p, a.operations[k])
          invariant !allowed ==> exists k :: 0 <= k < |a.operations| && !Authorize(p, a.operations[k])
        {
          allowed := Authorize(p, a.operations[j]);
          j := j + 1;
        }
        if allowed && (!a.installation || InstallationWide(p)) {
          assert a in req.alternatives && Satisfies(p, a);
          return true;
        }
      }
    }
    return false;
  }

  /** One security alternative as the contract's JSON gives it: schemes and their scopes. */
  type Scheme = map<string, seq<string>>

  datatype Scoped = Scoped(kind: Kind, scopes: seq<string>)

  /** Which principals an alternative is for; `safe` says that the method is GET
      and `catalog` that the path is the model catalog. */
  function SchemeOf(s: Scheme, safe: bool, catalog: bool): Option<Scoped> {
    if "sessionCookie" in s then
      if ("csrfToken" in s) == safe || |s| != (if safe then 1 else 2) then None
      else Some(Scoped(UserKind, s["sessionCookie"]))
    else if "managementToken" in s then
      if |s| != 1 then None else Some(Scoped(MachineKind, s["managementToken"]))
    else if "apiKeyBearer" in s then
      if !catalog || !safe || |s| != 1 || s["apiKeyBearer"] != ["models_read"] then None
      else Some(Scoped(KeyKind, ["read"]))
    else None
  }

  /** The operations that scopes name, in order; None when one is unknown or, for
      a token, cannot be delegated. */
  function OperationsOf(kind: Kind, scopes: seq<string>): Option<seq<Operation>> {
    if scopes == [] then Some([])
    else
      var before, scope := OperationsOf(kind, scopes[..|scopes| - 1]), scopes[|scopes| - 1];
      if before.None? then None
      else if scope == "installation" then before
      else
        var op := Named(scope);
        if op.None? || (kind == MachineKind && !RuleOf(op.value).delegable) then None
        else Some(before.value + [op.value])
  }

  function ParseAlternative(s: Scheme, safe: bool, catalog: bool): Option<Alternative> {
    var scoped := SchemeOf(s, safe, catalog);
    if scoped.None? then None
    else
      var ops := OperationsOf(scoped.value.kind, scoped.value.scopes);
      var installation := "installation" in scoped.value.scopes;
      if ops.None? || ops.value == [] then None
      else if (exists op :: op in ops.value && RuleOf(op).installation) && !installation then None
      else Some(Alternative(scoped.value.kind, ops.value, installation))
  }

  function ParseAlternatives(security: seq<Scheme>, safe: bool, catalog: bool): Option<seq<Alternative>> {
    if security == [] then Some([])
    else
      var before := ParseAlternatives(security[..|security| - 1], safe, catalog);
      var a := ParseAlternative(security[|security| - 1], safe, catalog);
      if before.None? || a.None? then None else Some(before.value + [a.value])
  }

  /** parseRequirement. */
  function ParseRequirement(security: seq<Scheme>, safe: bool, catalog: bool): Option<Requirement> {
    if security == [] || (|security| == 1 && |security[0]| == 1 && "bootstrapSetupToken" in security[0]) then
      Some(Requirement(true, []))
    else
      var alternatives := ParseAlternatives(security, safe, catalog);
      if alternatives.None? then None else Some(Requirement(false, alternatives.value))
  }

  /** The scope loop of parseRequirement. */
  method ReadScopes(kind: Kind, scopes: seq<string>)
      returns (ops: Option<seq<Operation>>, installation: bool, needed: bool)
    ensures ops == OperationsOf(kind, scopes)
    ensures ops.Some? ==>
              installation == ("installation" in scopes)
                && (needed <==> exists op :: op in ops.value && RuleOf(op).installation)
  {
    hide RuleOf, NameOf, Named;
    var found: seq<Operation> := [];
    installation, needed := false, false;
    for i := 0 to |scopes|
      invariant OperationsOf(kind, scopes[..i]) == Some(found)
      invariant installation == ("installation" in scopes[..i])
      invariant needed <==> exists op :: op in found && RuleOf(op).installation
    {
      assert scopes[..i + 1][..i] == scopes[..i];
      if scopes[i] == "installation" {
        installation := true;
      } else {
        var op := ParseOperation(scopes[i]);
        ParsedIsNamed(scopes[i], op);
        if op.None? || (kind == MachineKind && !RuleOf(op.value).delegable) {
          UnreadableStaysSo(kind, scopes, i + 1);
          return None, false, false;
        }
        needed := needed || RuleOf(op.value).installation;
        assert forall o :: o in found + [op.value] <==> o in found || o == op.value;
        found := found + [op.value];
      }
    }
    assert scopes[..|scopes|] == scopes;
    ops := Some(found);
  }

  lemma {:induction false} UnreadableStaysSo(kind: Kind, scopes: seq<string>, i: nat)
    requires i <= |scopes| && OperationsOf(kind, scopes[..i]).None?
    ensures OperationsOf(kind, scopes).None?
    decreases |scopes| - i
  {
    if i == |scopes| {
      assert scopes[..i] == scopes;
    } else {
      assert scopes[..i + 1][..i] == scopes[..i];
      UnreadableStaysSo(kind, scopes, i + 1);
    }
  }

  /** A contract that reads truthfully. */
  predicate Truthful(a: Alternative) {
    && a.operations != []
    && (a.kind == MachineKind ==> forall op :: op in a.operations ==> RuleOf(op).delegable)
    && ((exists op :: op in a.operations && RuleOf(op).installation) ==> a.installation)
    && (a.kind == KeyKind ==> a.operations == [Read])
  }

  lemma {:induction false} ReadScopesAreDelegable(scopes: seq<string>)
    requires OperationsOf(MachineKind, scopes).Some?
    ensures forall op :: op in OperationsOf(MachineKind, scopes).value ==> RuleOf(op).delegable
  {
    if scopes != [] {
      ReadScopesAreDelegable(scopes[..|scopes| - 1]);
    }
  }

  lemma ParsedAlternativeIsTruthful(s: Scheme, safe: bool, catalog: bool)
    requires ParseAlternative(s, safe, catalog).Some?
    ensures Truthful(ParseAlternative(s, safe, catalog).value)
  {
    hide RuleOf, NameOf, Named;
    var scoped := SchemeOf(s, safe, catalog).value;
    if scoped.kind == MachineKind {
      ReadScopesAreDelegable(scoped.scopes);
    } else if scoped.kind == KeyKind {
      KeyReads();
    }
  }

  lemma KeyReads()
    ensures OperationsOf(KeyKind, ["read"]) == Some([Read])
  {
    var scopes := ["read"];
    assert scopes[..0] == [];
    assert NameOf(Read) == "read" && |"read"| != |"installation"|;
    NamedIsInverse(Read, "read");
    assert OperationsOf(KeyKind, scopes[..0]) == Some([]);
    assert [] + [Read] == [Read];
  }

  lemma {:induction false} ParsedAlternativesAreTruthful(security: seq<Scheme>, safe: bool, catalog: bool)
    requires ParseAlternatives(security, safe, catalog).Some?
    ensures forall a :: a in ParseAlternatives(security, safe, catalog).value ==> Truthful(a)
    ensures |ParseAlternatives(security, safe, catalog).value| == |security|
  {
    if security != [] {
      hide Truthful, ParseAlternative;
      ParsedAlternativesAreTruthful(security[..|security| - 1], safe, catalog);
      ParsedAlternativeIsTruthful(security[|security| - 1], safe, catalog);
    }
  }

  /** For every contract that parses: a token admitted to a secured route holds a
      non-empty set of delegable operations, all of which its creator holds now,
      over the whole installation where the route says so. */
  lemma AdmittedTokenActsWithinCreator(security: seq<Scheme>, safe: bool, catalog: bool, t: Tables, k: Id)
    returns (a: Alternative)
    requires ParseRequirement(security, safe, catalog).Some? && MachineOf(t, k).Some?
    requires Admitted(ParseRequirement(security, safe, catalog).value, MachineOf(t, k).value)
    ensures a in ParseRequirement(security, safe, catalog).value.alternatives && a.kind == MachineKind
            && a.operations != []
    ensures forall op :: op in a.operations ==> RuleOf(op).delegable && Authorize(MemberOf(t, t.tokens[k].creator), op)
    ensures a.installation ==> MemberOf(t, t.tokens[k].creator).allProjects
    ensures (exists op :: op in a.operations && RuleOf(op).installation) ==> a.installation
  {
    hide RuleOf, Scopes, Narrowed, Authorize, ParseAlternatives;
    var req, p := ParseRequirement(security, safe, catalog).value, MachineOf(t, k).value;
    a :| a in req.alternatives && Satisfies(p, a);
    ParsedAlternativesAreTruthful(security, safe, catalog);
    forall op | op in a.operations ensures Authorize(MemberOf(t, t.tokens[k].creator), op) {
      TokenOperationsWithinCreator(t, k, op);
    }
  }

  /** An inference key is admitted to nothing but catalog reads. */
  lemma InferenceKeyOnlyReadsTheCatalog(security: seq<Scheme>, safe: bool, catalog: bool, p: Principal)
    requires p.InferenceKey? && ParseRequirement(security, safe, catalog).Some?
    requires Admitted(ParseRequirement(security, safe, catalog).value, p)
    ensures safe && catalog && p.modelsRead
  {
    var req := ParseRequirement(security, safe, catalog).value;
    var a :| a in req.alternatives && Satisfies(p, a);
    ParsedAlternativesAreTruthful(security, safe, catalog);
    assert Read in a.operations;
    KeyAlternativesAreSafe(security, safe, catalog, a);
  }

  lemma {:induction false} KeyAlternativesAreSafe(security: seq<Scheme>, safe: bool, catalog: bool, a: Alternative)
    requires ParseAlternatives(security, safe, catalog).Some?
             && a in ParseAlternatives(security, safe, catalog).value && a.kind == KeyKind
    ensures safe && catalog
  {
    if a in ParseAlternatives(security[..|security| - 1], safe, catalog).value {
      KeyAlternativesAreSafe(security[..|security| - 1], safe, catalog, a);
    }
  }

  /** One alternative of a route. */
  method ReadAlternative(s: Scheme, safe: bool, catalog: bool) returns (a: Option<Alternative>)
    ensures a == ParseAlternative(s, safe, catalog)
  {
    hide RuleOf, SchemeOf, OperationsOf;
    var scoped := SchemeOf(s, safe, catalog);
    if scoped.None? { return None; }
    var ops, installation, needed := ReadScopes(scoped.value.kind, scoped.value.scopes);
    if ops.None? || ops.value == [] || (needed && !installation) { return None; }
    return Some(Alternative(scoped.value.kind, ops.value, installation));
  }

  /** The loop of parseRequirement over a route's alternatives. */
  method ReadRequirement(security: seq<Scheme>, safe: bool, catalog: bool) returns (req: Option<Requirement>)
    ensures req == ParseRequirement(security, safe, catalog)
  {
    hide ParseAlternative;
    if |security| == 0 { return Some(Requirement(true, [])); }
    if |security| == 1 && |security[0]| == 1
      && "bootstrapSetupToken" in security[0] { return Some(Requirement(true, [])); }
    var alternatives: seq<Alternative> := [];
    for i := 0 to |security|
      invariant ParseAlternatives(security[..i], safe, catalog) == Some(alternatives)
    {
      assert security[..i + 1][..i] == security[..i];
      var a := ReadAlternative(security[i], safe, catalog);
      if a.None? {
        RefusedStaysSo(security, safe, catalog, i + 1);
        return None;
      }
      alternatives := alternatives + [a.value];
    }
    assert security[..|security|] == security;
    return Some(Requirement(false, alternatives));
  }

  lemma {:induction false} RefusedStaysSo(security: seq<Scheme>, safe: bool, catalog: bool, i: nat)
    requires i <= |security| && ParseAlternatives(security[..i], safe, catalog).None?
    ensures ParseAlternatives(security, safe, catalog).None?
    decreases |security| - i
  {
    if i == |security| {
      assert security[..i] == security;
    } else {
      assert security[..i + 1][..i] == security[..i];
      RefusedStaysSo(security, safe, catalog, i + 1);
    }
  }
}
