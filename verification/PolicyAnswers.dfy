/** Exactly whom a credential stands for, what a token may do, and whom a route's
    contract lets in. */
module PolicyAnswers {
  import opened Common
  import opened Kernel
  import opened Policy
  import opened Route

  // Whom a credential stands for.

  /** A credential resolves if and only if it is a session of an active, authorized
      account, or a token that is neither expired nor revoked of such an account;
      it then resolves to that account or to that token. */
  lemma ResolvesExactlyWhen(t: Tables, c: Credential)
    ensures Resolve(t, c).Some? <==>
              match c
              case Cookie(s) =>
                s in t.sessions && t.sessions[s] in t.accounts && t.accounts[t.sessions[s]].active
                && t.accounts[t.sessions[s]].authorized
              case Bearer(k) =>
                && k in t.tokens && t.tokens[k].live && t.tokens[k].creator in t.accounts
                && t.accounts[t.tokens[k].creator].active && t.accounts[t.tokens[k].creator].authorized
    ensures Resolve(t, c).Some? ==>
              match c
              case Cookie(s) => Resolve(t, c).value.User? && Resolve(t, c).value.id == t.sessions[s]
              case Bearer(k) =>
                && Resolve(t, c).value.Machine? && Resolve(t, c).value.id == k
                && Resolve(t, c).value.creator == t.tokens[k].creator
  {
    hide Scopes, Narrowed;
  }

  /** So an expired or revoked token is nobody, and is let in nowhere. */
  lemma DeadTokenIsNobody(t: Tables, k: Id, req: Requirement)
    requires k !in t.tokens || !t.tokens[k].live
    ensures Resolve(t, Bearer(k)).None? && !Allowed(t, Bearer(k), req)
  {
    hide Scopes, Narrowed, Admitted;
    ResolvesExactlyWhen(t, Bearer(k));
  }

  // What a token may do.

  lemma {:induction false} ScopesAreTheNames(names: seq<string>, op: Operation)
    ensures op in Scopes(names) <==> NameOf(op) in names
  {
    if names != [] {
      hide NameOf, Named;
      var front, last := names[..|names| - 1], names[|names| - 1];
      ScopesAreTheNames(front, op);
      NamedIsInverse(op, last);
      assert NameOf(op) in names <==> NameOf(op) in front || NameOf(op) == last;
    }
  }

  /** A token is authorized for an operation if and only if one of its scopes names
      it, tokens may have it, and its creator is authorized for it now; an
      operation over the installation also needs a token for all projects. */
  lemma TokenAuthorizesExactly(t: Tables, k: Id, op: Operation)
    requires MachineOf(t, k).Some?
    ensures Authorize(MachineOf(t, k).value, op) <==>
              && NameOf(op) in t.tokens[k].scopes && RuleOf(op).delegable
              && Authorize(MemberOf(t, t.tokens[k].creator), op)
              && (RuleOf(op).installation ==> t.tokens[k].allProjects)
  {
    hide RuleOf, NameOf, Scopes, Narrowed;
    ScopesAreTheNames(t.tokens[k].scopes, op);
  }

  lemma {:induction false} NarrowedGlobally(memberships: map<Id, Member>, ids: seq<Id>)
    ensures var n := Narrowed(true, memberships, ids); forall id :: id in n <==> id in ids
    ensures var n := Narrowed(true, memberships, ids); forall id :: id in n ==> n[id] == Managing
  {
    if ids != [] {
      NarrowedGlobally(memberships, ids[..|ids| - 1]);
      assert forall id :: id in ids <==> id in ids[..|ids| - 1] || id == ids[|ids| - 1];
    }
  }

  /** A token reaches a project if and only if it is for all projects or lists it,
      and its creator reaches it as far now; what is assigned to no project it
      reaches only when it is for all and its creator is global. */
  lemma TokenReachesProjectExactly(t: Tables, k: Id, project: Option<Id>, need: Need)
    requires MachineOf(t, k).Some?
    ensures ReachesProject(MachineOf(t, k).value, project, need) <==>
              && (t.tokens[k].allProjects || (project.Some? && project.value in t.tokens[k].projects))
              && ReachesProject(MemberOf(t, t.tokens[k].creator), project, need)
  {
    hide RuleOf, Scopes, Narrowed;
    var token := t.tokens[k];
    var memberships := MembershipsOf(t.projects, token.creator);
    NarrowedKeepsListed(memberships, token.projects);
    NarrowedGlobally(memberships, token.projects);
  }

  /** And an organization if and only if it is for all projects and its creator is
      in it as far as needed, or is global and it is to be seen, or is a global
      owner and the token has the access scope. */
  lemma TokenReachesOrganizationExactly(t: Tables, k: Id, organization: Id, need: Need)
    requires MachineOf(t, k).Some?
    ensures var u := t.tokens[k].creator; var own := MembershipsOf(t.organizations, u);
            ReachesOrganization(MachineOf(t, k).value, organization, need) <==>
              && t.tokens[k].allProjects
              && ((organization in own && (need == Change ==> own[organization] == Managing))
                  || (t.accounts[u].scope == Global
                      && (need == View || (t.accounts[u].role == Owner && "access" in t.tokens[k].scopes))))
  {
    hide Scopes, Narrowed, Authorize;
    TokenAuthorizesExactly(t, k, Access);
    OnlyOwnersHaveAccess(t, t.tokens[k].creator);
  }

  lemma OnlyOwnersHaveAccess(t: Tables, u: Id)
    requires u in t.accounts
    ensures Authorize(MemberOf(t, u), Access) <==> t.accounts[u].role == Owner && t.accounts[u].scope == Global
    ensures RuleOf(Access).delegable && RuleOf(Access).installation && NameOf(Access) == "access"
  {
  }

  // Whom a contract lets in.

  /** The names among scopes that are operations. */
  predicate Names(scopes: seq<string>, op: Operation) {
    NameOf(op) in scopes && NameOf(op) != "installation"
  }

  predicate Readable(kind: Kind, name: string) {
    name == "installation" || (Named(name).Some? && (kind == MachineKind ==> RuleOf(Named(name).value).delegable))
  }

  lemma OneScope(kind: Kind, scopes: seq<string>)
    requires scopes != []
    ensures var front, last := scopes[..|scopes| - 1], scopes[|scopes| - 1];
            var before, all := OperationsOf(kind, front), OperationsOf(kind, scopes);
            && (all.Some? <==> before.Some? && Readable(kind, last))
            && (all.Some? ==>
                  all.value == before.value + if last == "installation" then [] else [Named(last).value])
  {
    hide NameOf, Named, RuleOf;
  }

  lemma {:induction false} OperationsExactly(kind: Kind, scopes: seq<string>)
    ensures OperationsOf(kind, scopes).Some? <==> forall name :: name in scopes ==> Readable(kind, name)
    ensures OperationsOf(kind, scopes).Some? ==>
              forall op :: op in OperationsOf(kind, scopes).value <==> Names(scopes, op)
  {
    if scopes != [] {
      hide NameOf, Named, RuleOf;
      var front, last := scopes[..|scopes| - 1], scopes[|scopes| - 1];
      OneScope(kind, scopes);
      OperationsExactly(kind, front);
      assert forall name :: name in scopes <==> name in front || name == last;
      hide OperationsOf;
      if OperationsOf(kind, scopes).Some? {
        forall op: Operation ensures op in OperationsOf(kind, scopes).value <==> Names(scopes, op) {
          NamedIsInverse(op, last);
        }
        assert Readable(kind, last);
      }
    }
  }

  /** The principals an alternative is for, and its scopes, by the contract's
      rules: a session on its own for a safe method and with a CSRF token
      otherwise, a management token, or an API key for reading the catalog. */
  predicate For(s: Scheme, safe: bool, catalog: bool, kind: Kind, scopes: seq<string>) {
    match kind
    case UserKind =>
      && "sessionCookie" in s && scopes == s["sessionCookie"]
      && s.Keys == if safe then {"sessionCookie"} else {"sessionCookie", "csrfToken"}
    case MachineKind => "managementToken" in s && scopes == s["managementToken"] && s.Keys == {"managementToken"}
    case KeyKind =>
      safe && catalog && s == map["apiKeyBearer" := ["models_read"]] && scopes == ["read"]
  }

  lemma SchemeExactly(s: Scheme, safe: bool, catalog: bool, kind: Kind, scopes: seq<string>)
    ensures SchemeOf(s, safe, catalog) == Some(Scoped(kind, scopes)) <==> For(s, safe, catalog, kind, scopes)
  {
    var a, b, c, d := "sessionCookie", "csrfToken", "managementToken", "apiKeyBearer";
    assert a[0] == 's' && b[0] == 'c' && c[0] == 'm' && d[0] == 'a';
    if a in s && b in s {
      PairKeys(s, a, b);
    }
    if a in s { OneKey(s, a); }
    if c in s { OneKey(s, c); }
    if d in s { OneKey(s, d); }
    if SchemeOf(s, safe, catalog) == Some(Scoped(kind, scopes)) && kind == KeyKind {
      assert s == map[d := s[d]];
    }
  }

  lemma OneKey(s: Scheme, a: string)
    requires a in s
    ensures |s| == 1 <==> s.Keys == {a}
  {
    assert |s.Keys| == |s|;
    if s.Keys != {a} {
      var x :| x in s.Keys && x != a;
      SubsetSize({a, x}, s.Keys);
    }
  }

  lemma PairKeys(s: Scheme, a: string, b: string)
    requires a in s && b in s && a != b
    ensures |s| == 2 <==> s.Keys == {a, b}
  {
    assert |s.Keys| == |s|;
    if s.Keys != {a, b} {
      var x :| x in s.Keys && x != a && x != b;
      var three := {a, b, x};
      assert |three| == 3;
      SubsetSize(three, s.Keys);
    }
  }

  /** An alternative that the contract's rules allow: its scopes are operations, at
      least one, which a token may have if it is for tokens, and it declares the
      installation if one of them needs it. */
  ghost predicate Sound(kind: Kind, scopes: seq<string>) {
    && (forall name :: name in scopes ==> Readable(kind, name)) && (exists op :: Names(scopes, op))
    && ((exists op :: Names(scopes, op) && RuleOf(op).installation) ==> "installation" in scopes)
  }

  lemma AlternativeExactly(s: Scheme, safe: bool, catalog: bool)
    ensures var a := ParseAlternative(s, safe, catalog);
            && (a.Some? <==> SchemeOf(s, safe, catalog).Some?
                             && Sound(SchemeOf(s, safe, catalog).value.kind, SchemeOf(s, safe, catalog).value.scopes))
            && (a.Some? ==>
                  var scoped := SchemeOf(s, safe, catalog).value;
                  && a.value.kind == scoped.kind && (a.value.installation <==> "installation" in scoped.scopes)
                  && forall op :: op in a.value.operations <==> Names(scoped.scopes, op))
  {
    hide SchemeOf, OperationsOf, RuleOf, Names, Readable;
    var scoped := SchemeOf(s, safe, catalog);
    if scoped.Some? {
      OperationsExactly(scoped.value.kind, scoped.value.scopes);
      var ops := OperationsOf(scoped.value.kind, scoped.value.scopes);
      if ops.Some? {
        assert ops.value != [] ==> ops.value[0] in ops.value;
      }
    }
  }

  /** The alternative lets the principal in: it is for principals of its kind, all
      its operations are authorized, and it is global where the installation is
      declared. */
  ghost predicate LetsIn(s: Scheme, safe: bool, catalog: bool, p: Principal) {
    exists scopes ::
      && For(s, safe, catalog, KindOf(p), scopes) && (forall op :: Names(scopes, op) ==> Authorize(p, op))
      && ("installation" in scopes ==> !p.InferenceKey? && p.allProjects)
  }

  lemma SatisfiesExactly(s: Scheme, safe: bool, catalog: bool, p: Principal)
    requires ParseAlternative(s, safe, catalog).Some?
    ensures Satisfies(p, ParseAlternative(s, safe, catalog).value) <==> LetsIn(s, safe, catalog, p)
  {
    hide SchemeOf, ParseAlternative, RuleOf, Names, Readable, Authorize, For;
    AlternativeExactly(s, safe, catalog);
    var scoped := SchemeOf(s, safe, catalog).value;
    SchemeExactly(s, safe, catalog, scoped.kind, scoped.scopes);
    forall scopes | For(s, safe, catalog, KindOf(p), scopes) ensures scoped == Scoped(KindOf(p), scopes) {
      SchemeExactly(s, safe, catalog, KindOf(p), scopes);
    }
  }

  lemma {:induction false} AlternativesExactly(security: seq<Scheme>, safe: bool, catalog: bool)
    ensures var all := ParseAlternatives(security, safe, catalog);
            && (all.Some? <==> forall i :: 0 <= i < |security| ==> ParseAlternative(security[i], safe, catalog).Some?)
            && (all.Some? ==>
                  && |all.value| == |security|
                  && forall i :: 0 <= i < |security| ==>
                       ParseAlternative(security[i], safe, catalog) == Some(all.value[i]))
  {
    hide ParseAlternative;
    if security != [] {
      var n := |security| - 1;
      var front := security[..n];
      AlternativesExactly(front, safe, catalog);
      assert ParseAlternatives(security, safe, catalog).Some? <==>
             ParseAlternatives(front, safe, catalog).Some? && ParseAlternative(security[n], safe, catalog).Some?;
      hide ParseAlternatives;
      assert forall i :: 0 <= i < n ==> security[i] == front[i];
    }
  }

  predicate Open(security: seq<Scheme>) {
    security == [] || (|security| == 1 && security[0].Keys == {"bootstrapSetupToken"})
  }

  lemma OpenExactly(security: seq<Scheme>)
    ensures Open(security) <==>
              security == [] || (|security| == 1 && |security[0]| == 1 && "bootstrapSetupToken" in security[0])
  {
    if |security| == 1 && "bootstrapSetupToken" in security[0] {
      OneKey(security[0], "bootstrapSetupToken");
    }
  }

  /** An alternative that the rules allow. */
  ghost predicate Lawful(s: Scheme, safe: bool, catalog: bool) {
    exists kind, scopes :: For(s, safe, catalog, kind, scopes) && Sound(kind, scopes)
  }

  lemma AlternativeReadExactlyWhen(s: Scheme, safe: bool, catalog: bool)
    ensures ParseAlternative(s, safe, catalog).Some? <==> Lawful(s, safe, catalog)
  {
    hide ParseAlternative, SchemeOf, For, Sound;
    AlternativeExactly(s, safe, catalog);
    if SchemeOf(s, safe, catalog).Some? {
      SchemeExactly(s, safe, catalog, SchemeOf(s, safe, catalog).value.kind, SchemeOf(s, safe, catalog).value.scopes);
    }
    forall kind, scopes | For(s, safe, catalog, kind, scopes)
      ensures SchemeOf(s, safe, catalog) == Some(Scoped(kind, scopes))
    {
      SchemeExactly(s, safe, catalog, kind, scopes);
    }
  }

  /** A contract is read if and only if it is open or every alternative is one the
      rules allow. */
  lemma ContractReadExactlyWhen(security: seq<Scheme>, safe: bool, catalog: bool)
    ensures ParseRequirement(security, safe, catalog).Some? <==>
              Open(security) || forall i :: 0 <= i < |security| ==> Lawful(security[i], safe, catalog)
  {
    hide ParseAlternative, ParseAlternatives, Lawful, Open;
    OpenExactly(security);
    AlternativesExactly(security, safe, catalog);
    forall i | 0 <= i < |security|
      ensures ParseAlternative(security[i], safe, catalog).Some? <==> Lawful(security[i], safe, catalog)
    {
      AlternativeReadExactlyWhen(security[i], safe, catalog);
    }
  }

  /** For every contract that is read and not open: a principal is let in if and
      only if one of its alternatives lets it in, told on the contract itself. */
  lemma AdmittedExactlyWhen(security: seq<Scheme>, safe: bool, catalog: bool, p: Principal)
    requires ParseRequirement(security, safe, catalog).Some? && !Open(security)
    ensures Admitted(ParseRequirement(security, safe, catalog).value, p) <==>
              exists i :: 0 <= i < |security| && LetsIn(security[i], safe, catalog, p)
  {
    hide ParseAlternative, ParseAlternatives, LetsIn, Satisfies, Open;
    OpenExactly(security);
    AlternativesExactly(security, safe, catalog);
    var req := ParseRequirement(security, safe, catalog).value;
    forall i | 0 <= i < |security|
      ensures Satisfies(p, req.alternatives[i]) <==> LetsIn(security[i], safe, catalog, p)
    {
      SatisfiesExactly(security[i], safe, catalog, p);
    }
    if exists i :: 0 <= i < |security| && LetsIn(security[i], safe, catalog, p) {
      var i :| 0 <= i < |security| && LetsIn(security[i], safe, catalog, p);
      assert req.alternatives[i] in req.alternatives && Satisfies(p, req.alternatives[i]);
    }
    if Admitted(req, p) {
      var a :| a in req.alternatives && Satisfies(p, a);
      var i :| 0 <= i < |req.alternatives| && req.alternatives[i] == a;
      assert LetsIn(security[i], safe, catalog, p);
    }
  }
}
