/** Rows that several handlers of internal/access share. */
module Kernel {
  import opened Common

  datatype Role = Owner | Operator | Developer | Viewer

  datatype Scope = Global | Assigned

  /** Who decides a user's role. */
  datatype Management = ByHand | ByOidc | BySaml | ByProvisioning

  /** How a session was authenticated. */
  datatype SignIn = Local | Oidc | Saml

  /** olp.users. `authorized` is the column oidc_authorized. */
  datatype User = User(
    email: string,
    role: Role,
    active: bool,
    authorized: bool,
    scope: Scope,
    management: Management,
    password: bool,
    etag: Id,
    mfaRevision: Id)

  /** The part of a user that decides what a session may do. */
  datatype Standing = Standing(role: Role, active: bool, authorized: bool, scope: Scope)

  function StandingOf(u: User): Standing {
    Standing(u.role, u.active, u.authorized, u.scope)
  }

  /** olp.sessions. `minted` records the user's standing when the session was
      created; no handler reads it. */
  datatype Session = Session(user: Id, signIn: SignIn, mfa: bool, expires: Time, minted: Standing)

  /** Sessions live 24 hours. */
  const SESSION_TTL: Time := 86400

  function SessionsOf(sessions: map<Id, Session>, u: Id): set<Id> {
    set s | s in sessions && sessions[s].user == u
  }

  // "ORDER BY created_at DESC OFFSET n": identifiers grow with creation time.

  function Newer(ids: set<Id>, k: Id): set<Id> {
    set j | j in ids && j > k
  }

  function Surplus(ids: set<Id>, n: nat): set<Id> {
    set k | k in ids && |Newer(ids, k)| >= n
  }

  /** Deleting the surplus leaves at most `n` rows. */
  lemma SurplusLeaves(ids: set<Id>, n: nat)
    ensures |ids - Surplus(ids, n)| <= n
  {
    var kept := ids - Surplus(ids, n);
    if kept != {} {
      var m := Least(kept);
      assert kept - {m} <= Newer(ids, m);
      SubsetSize(kept - {m}, Newer(ids, m));
    }
  }

  /** What is kept is the newest: as many as there are, up to `n`, and each newer
      than everything deleted. */
  lemma SurplusIsTheOldest(ids: set<Id>, n: nat, kept: Id, gone: Id)
    requires kept in ids - Surplus(ids, n) && gone in Surplus(ids, n)
    ensures kept > gone && |ids - Surplus(ids, n)| == n
  {
    if kept < gone {
      assert Newer(ids, gone) <= Newer(ids, kept);
      SubsetSize(Newer(ids, gone), Newer(ids, kept));
    }
    var all := ids - Surplus(ids, n);
    SurplusLeaves(ids, n);
    var last := Greatest(Surplus(ids, n));
    forall k | k in Newer(ids, last) ensures k in all {
    }
    SubsetSize(Newer(ids, last), all);
  }

  lemma {:induction false} Greatest(ids: set<Id>) returns (m: Id)
    requires ids != {}
    ensures m in ids && forall k :: k in ids ==> k <= m
    decreases ids
  {
    var some :| some in ids;
    var larger := set k | k in ids && k > some;
    assert forall k :: k in ids ==> k in larger || k <= some;
    if larger == {} {
      m := some;
    } else {
      assert some !in larger;
      m := Greatest(larger);
    }
  }
}
