/** Code pools of internal/access/code_mode.go: validation to a canonical form,
    and saving it. `Parse` stands for ParseUUID: any partial function from
    strings whose results parse to themselves. */
module CodePool {
  import opened Common

  const MAX_WEIGHT: int := 2147483647
  const MAX_ASSIGNMENTS: nat := 100

  type Parse = string -> Option<string>

  ghost predicate Canonical(parse: Parse) {
    forall s :: parse(s).Some? ==> parse(parse(s).value) == parse(s)
  }

  datatype Kind = Personal | Shared | Unknown

  /** CodePoolInput; absent lists are None, and `validName` is what ValidText says. */
  datatype Input = Input(
    project: string, name: string, validName: bool, kind: Kind, owner: Option<string>,
    accounts: Option<seq<string>>, keys: Option<seq<string>>, weights: map<string, int>)

  predicate Distinct(xs: seq<string>) {
    forall i, j :: 0 <= i < j < |xs| ==> xs[i] != xs[j]
  }

  /** `xs` lists the elements of `s` once each, in whatever order. */
  predicate Listing(xs: seq<string>, s: set<string>) {
    Distinct(xs) && (forall x :: x in xs ==> x in s) && forall x :: x in s ==> x in xs
  }

  function ParseAll(parse: Parse, xs: seq<string>): Option<seq<string>> {
    if xs == [] then Some([])
    else
      var before, last := ParseAll(parse, xs[..|xs| - 1]), parse(xs[|xs| - 1]);
      if before.None? || last.None? then None else Some(before.value + [last.value])
  }

  /** Parsing keeps length and place. */
  lemma {:induction false} ParseAllAt(parse: Parse, xs: seq<string>)
    ensures ParseAll(parse, xs).Some? <==> forall i :: 0 <= i < |xs| ==> parse(xs[i]).Some?
    ensures ParseAll(parse, xs).Some? ==>
              && |ParseAll(parse, xs).value| == |xs|
              && forall i :: 0 <= i < |xs| ==> parse(xs[i]) == Some(ParseAll(parse, xs).value[i])
  {
    if xs != [] {
      var front := xs[..|xs| - 1];
      ParseAllAt(parse, front);
      assert forall i :: 0 <= i < |front| ==> front[i] == xs[i];
    }
  }

  function ParseOwner(parse: Parse, owner: Option<string>): Option<Option<string>> {
    if owner.None? then Some(None)
    else
      var o := parse(owner.value);
      if o.None? then None else Some(o)
  }

  /** The weights under their canonical ids. */
  function Reweighed(canonical: seq<string>, keys: seq<string>, weights: map<string, int>): map<string, int>
    requires |canonical| == |keys| && forall k :: k in keys ==> k in weights
  {
    if keys == [] then map[]
    else
      var n := |keys| - 1;
      assert keys[n] in keys;
      assert forall k :: k in keys[..n] ==> k in keys;
      Reweighed(canonical[..n], keys[..n], weights)[canonical[n] := weights[keys[n]]]
  }

  lemma {:induction false} ReweighedKeys(canonical: seq<string>, keys: seq<string>, weights: map<string, int>)
    requires |canonical| == |keys| && forall k :: k in keys ==> k in weights
    ensures forall x :: x in Reweighed(canonical, keys, weights) <==> x in canonical
  {
    if keys != [] {
      var n := |keys| - 1;
      assert forall k :: k in keys[..n] ==> k in keys;
      ReweighedKeys(canonical[..n], keys[..n], weights);
      assert forall x :: x in canonical <==> x in canonical[..n] || x == canonical[n];
    }
  }

  lemma {:induction false} ReweighedAt(canonical: seq<string>, keys: seq<string>, weights: map<string, int>, i: nat)
    requires |canonical| == |keys| && Distinct(canonical) && i < |keys| && forall k :: k in keys ==> k in weights
    ensures keys[i] in keys && canonical[i] in Reweighed(canonical, keys, weights)
    ensures Reweighed(canonical, keys, weights)[canonical[i]] == weights[keys[i]]
  {
    var n := |keys| - 1;
    assert forall k :: k in keys[..n] ==> k in keys;
    if i < n {
      ReweighedAt(canonical[..n], keys[..n], weights, i);
      assert canonical[i] != canonical[n];
    }
  }

  /** validate. */
  predicate Valid(x: Input) {
    && x.validName
    && !x.kind.Unknown? && (x.kind.Personal? <==> x.owner.Some?)
    && x.accounts.Some? && x.keys.Some? && |x.accounts.value| <= MAX_ASSIGNMENTS && |x.keys.value| <= MAX_ASSIGNMENTS
    && forall a :: a in x.weights ==> a in x.accounts.value && 1 <= x.weights[a] <= MAX_WEIGHT
  }

  /** Validated: all ids are put into one list, parsed together and sliced apart
      again. `weightKeys` is the list of the weights' keys. */
  function Validated(parse: Parse, x: Input, weightKeys: seq<string>): Option<Input>
    requires Listing(weightKeys, x.weights.Keys)
  {
    if x.accounts.None? || x.keys.None? || |x.accounts.value| > MAX_ASSIGNMENTS || |x.keys.value| > MAX_ASSIGNMENTS then
      None
    else
      var all := [x.project] + x.accounts.value + x.keys.value + weightKeys;
      var ids := ParseAll(parse, all);
      var owner := ParseOwner(parse, x.owner);
      if ids.None? || owner.None? then None
      else
        ParseAllAt(parse, all);
        var accountEnd := 1 + |x.accounts.value|;
        var keyEnd := accountEnd + |x.keys.value|;
        var canonical := ids.value[keyEnd..];
        if !Distinct(canonical) then None
        else
          var y := Input(ids.value[0], x.name, x.validName, x.kind, owner.value,
                         Some(ids.value[1..accountEnd]), Some(ids.value[accountEnd..keyEnd]),
                           Reweighed(canonical, weightKeys, x.weights));
          if Valid(y) then Some(y) else None
  }

  lemma {:induction false} ParseAllConcat(parse: Parse, xs: seq<string>, ys: seq<string>)
    ensures var a, b := ParseAll(parse, xs), ParseAll(parse, ys);
            ParseAll(parse, xs + ys) == if a.Some? && b.Some? then Some(a.value + b.value) else None
  {
    if ys == [] {
      assert xs + ys == xs;
      assert ParseAll(parse, ys) == Some([]);
      assert ParseAll(parse, xs).Some? ==> ParseAll(parse, xs).value + [] == ParseAll(parse, xs).value;
    } else {
      var n := |ys| - 1;
      ParseAllConcat(parse, xs, ys[..n]);
      var both := xs + ys;
      assert both[..|both| - 1] == xs + ys[..n] && both[|both| - 1] == ys[n];
      var a, b := ParseAll(parse, xs), ParseAll(parse, ys[..n]);
      if a.Some? && b.Some? && parse(ys[n]).Some? {
        assert a.value + b.value + [parse(ys[n]).value] == a.value + (b.value + [parse(ys[n]).value]);
      }
    }
  }

  lemma ParseOne(parse: Parse, x: string)
    ensures ParseAll(parse, [x]) == if parse(x).Some? then Some([parse(x).value]) else None
  {
    var xs := [x];
    assert xs[..0] == [];
    assert ParseAll(parse, xs[..0]) == Some([]);
    if parse(x).Some? {
      assert [] + [parse(x).value] == [parse(x).value];
    }
  }

  lemma ParseAllLength(parse: Parse, xs: seq<string>)
    ensures ParseAll(parse, xs).Some? ==> |ParseAll(parse, xs).value| == |xs|
  {
    ParseAllAt(parse, xs);
  }

  /** Slicing the parsed list apart gives what parsing each list gives. */
  lemma SlicesAreParsed(parse: Parse, project: string, accounts: seq<string>, keys: seq<string>,
      weightKeys: seq<string>)
    requires ParseAll(parse, [project] + accounts + keys + weightKeys).Some?
    ensures var ids := ParseAll(parse, [project] + accounts + keys + weightKeys).value;
            var accountEnd := 1 + |accounts|; var keyEnd := accountEnd + |keys|;
            && |ids| == keyEnd + |weightKeys| && parse(project) == Some(ids[0])
            && ParseAll(parse, accounts) == Some(ids[1..accountEnd])
            && ParseAll(parse, keys) == Some(ids[accountEnd..keyEnd])
            && ParseAll(parse, weightKeys) == Some(ids[keyEnd..])
  {
    ParseAllConcat(parse, [project] + accounts + keys, weightKeys);
    ParseAllConcat(parse, [project] + accounts, keys);
    ParseAllConcat(parse, [project], accounts);
    hide ParseAll;
    ParseOne(parse, project);
    ParseAllLength(parse, accounts);
    ParseAllLength(parse, keys);
    ParseAllLength(parse, weightKeys);
    var a, k, w := ParseAll(parse, accounts).value, ParseAll(parse, keys).value, ParseAll(parse, weightKeys).value;
    var ids := ParseAll(parse, [project] + accounts + keys + weightKeys).value;
    assert ids == [parse(project).value] + a + k + w;
    assert ids[1..1 + |a|] == a && ids[1 + |a|..1 + |a| + |k|] == k && ids[1 + |a| + |k|..] == w;
  }

  /** The canonical form, list by list. */
  lemma ValidatedByLists(parse: Parse, x: Input, weightKeys: seq<string>)
    requires Listing(weightKeys, x.weights.Keys) && Validated(parse, x, weightKeys).Some?
    ensures var y := Validated(parse, x, weightKeys).value;
            && Valid(y) && x.accounts.Some? && x.keys.Some?
            && parse(x.project) == Some(y.project) && ParseOwner(parse, x.owner) == Some(y.owner)
            && ParseAll(parse, x.accounts.value) == y.accounts && ParseAll(parse, x.keys.value) == y.keys
            && ParseAll(parse, weightKeys).Some? && |ParseAll(parse, weightKeys).value| == |weightKeys|
            && Distinct(ParseAll(parse, weightKeys).value)
            && y.weights == Reweighed(ParseAll(parse, weightKeys).value, weightKeys, x.weights)
            && y.name == x.name && y.validName == x.validName && y.kind == x.kind
  {
    hide Valid, ParseAll, Reweighed;
    SlicesAreParsed(parse, x.project, x.accounts.value, x.keys.value, weightKeys);
  }

  /** Putting together and slicing apart loses nothing: every id is parsed where
      it stands, and every weight goes to the parsed id of its account. */
  lemma ValidatedMeans(parse: Parse, x: Input, weightKeys: seq<string>)
    requires Listing(weightKeys, x.weights.Keys) && Validated(parse, x, weightKeys).Some?
    ensures var y := Validated(parse, x, weightKeys).value;
            && Valid(y) && parse(x.project) == Some(y.project) && ParseOwner(parse, x.owner) == Some(y.owner)
            && x.accounts.Some? && x.keys.Some? && |y.accounts.value| == |x.accounts.value|
               && |y.keys.value| == |x.keys.value|
            && (forall i :: 0 <= i < |x.accounts.value| ==> parse(x.accounts.value[i]) == Some(y.accounts.value[i]))
            && (forall i :: 0 <= i < |x.keys.value| ==> parse(x.keys.value[i]) == Some(y.keys.value[i]))
            && (forall k :: k in x.weights ==>
                 parse(k).Some? && parse(k).value in y.weights && y.weights[parse(k).value] == x.weights[k])
            && (forall k :: k in y.weights ==> exists j :: j in x.weights && parse(j) == Some(k))
            && y.name == x.name && y.validName == x.validName && y.kind == x.kind
  {
    hide Validated, Reweighed, ParseAll;
    ValidatedByLists(parse, x, weightKeys);
    ParseAllAt(parse, x.accounts.value);
    ParseAllAt(parse, x.keys.value);
    WeightsMove(parse, x.weights, weightKeys);
  }

  lemma WeightsMove(parse: Parse, weights: map<string, int>, weightKeys: seq<string>)
    requires Listing(weightKeys, weights.Keys) && ParseAll(parse, weightKeys).Some?
             && |ParseAll(parse, weightKeys).value| == |weightKeys|
    requires Distinct(ParseAll(parse, weightKeys).value)
    ensures var w := Reweighed(ParseAll(parse, weightKeys).value, weightKeys, weights);
            && (forall k :: k in weights ==> parse(k).Some? && parse(k).value in w && w[parse(k).value] == weights[k])
            && (forall k :: k in w ==> exists j :: j in weights && parse(j) == Some(k))
  {
    hide Reweighed, ParseAll;
    var canonical := ParseAll(parse, weightKeys).value;
    var w := Reweighed(canonical, weightKeys, weights);
    ParseAllAt(parse, weightKeys);
    ReweighedKeys(canonical, weightKeys, weights);
    forall k | k in weights ensures parse(k).Some? && parse(k).value in w && w[parse(k).value] == weights[k] {
      var i :| 0 <= i < |weightKeys| && weightKeys[i] == k;
      ReweighedAt(canonical, weightKeys, weights, i);
    }
    forall k | k in w ensures exists j :: j in weights && parse(j) == Some(k) {
      var i :| 0 <= i < |canonical| && canonical[i] == k;
      assert weightKeys[i] in weightKeys;
    }
  }

  /** An input whose ids are already canonical. */
  predicate Settled(parse: Parse, x: Input) {
    && Valid(x) && parse(x.project) == Some(x.project) && (x.owner.Some? ==> parse(x.owner.value) == x.owner)
    && (forall i :: 0 <= i < |x.accounts.value| ==> parse(x.accounts.value[i]) == Some(x.accounts.value[i]))
    && (forall i :: 0 <= i < |x.keys.value| ==> parse(x.keys.value[i]) == Some(x.keys.value[i]))
    && (forall k :: k in x.weights ==> parse(k) == Some(k))
  }

  lemma ParsesToItself(parse: Parse, xs: seq<string>)
    requires forall i :: 0 <= i < |xs| ==> parse(xs[i]) == Some(xs[i])
    ensures ParseAll(parse, xs) == Some(xs)
  {
    ParseAllAt(parse, xs);
    assert ParseAll(parse, xs).value == xs;
  }

  lemma {:induction false} ReweighedToItself(keys: seq<string>, weights: map<string, int>)
    requires Listing(keys, weights.Keys)
    ensures Reweighed(keys, keys, weights) == weights
  {
    ReweighedKeys(keys, keys, weights);
    var w := Reweighed(keys, keys, weights);
    forall k | k in weights ensures k in w && w[k] == weights[k] {
      var i :| 0 <= i < |keys| && keys[i] == k;
      ReweighedAt(keys, keys, weights, i);
    }
    assert w.Keys == weights.Keys;
  }

  lemma SettledStays(parse: Parse, x: Input, weightKeys: seq<string>)
    requires Settled(parse, x) && Listing(weightKeys, x.weights.Keys)
    ensures Validated(parse, x, weightKeys) == Some(x)
  {
    hide Reweighed, ParseAll;
    var accts, ks := x.accounts.value, x.keys.value;
    var all := [x.project] + accts + ks + weightKeys;
    ParsesToItself(parse, all);
    assert all[1..1 + |accts|] == accts && all[1 + |accts|..1 + |accts| + |ks|] == ks
           && all[1 + |accts| + |ks|..] == weightKeys;
    ReweighedToItself(weightKeys, x.weights);
  }

  lemma ValidatedIsSettled(parse: Parse, x: Input, weightKeys: seq<string>)
    requires Canonical(parse) && Listing(weightKeys, x.weights.Keys) && Validated(parse, x, weightKeys).Some?
    ensures Settled(parse, Validated(parse, x, weightKeys).value)
  {
    hide Valid, Validated;
    ValidatedMeans(parse, x, weightKeys);
    var y := Validated(parse, x, weightKeys).value;
    assert y.accounts.Some? && y.keys.Some? by { ValidHasLists(y); }
    forall k | k in y.weights ensures parse(k) == Some(k) {
      var j :| j in x.weights && parse(j) == Some(k);
    }
  }

  lemma ValidHasLists(y: Input)
    requires Valid(y)
    ensures y.accounts.Some? && y.keys.Some?
  {
  }

  /** Validating what was validated changes nothing, in whatever order the
      weights are listed. */
  lemma ValidatedIsIdempotent(parse: Parse, x: Input, weightKeys: seq<string>, again: seq<string>)
    requires Canonical(parse) && Listing(weightKeys, x.weights.Keys) && Validated(parse, x, weightKeys).Some?
    requires Listing(again, Validated(parse, x, weightKeys).value.weights.Keys)
    ensures Validated(parse, Validated(parse, x, weightKeys).value, again) == Validated(parse, x, weightKeys)
  {
    hide Validated, Settled;
    ValidatedIsSettled(parse, x, weightKeys);
    SettledStays(parse, Validated(parse, x, weightKeys).value, again);
  }

  // What is accepted.

  /** All ids parse, the lists are short enough, the weights name different
      accounts of the list once parsed and are in range, and the name, kind and
      owner go together. */
  predicate Wellformed(parse: Parse, x: Input) {
    && x.validName && !x.kind.Unknown? && (x.kind.Personal? <==> x.owner.Some?)
    && parse(x.project).Some? && (x.owner.Some? ==> parse(x.owner.value).Some?)
    && x.accounts.Some? && |x.accounts.value| <= 100 && (forall a :: a in x.accounts.value ==> parse(a).Some?)
    && x.keys.Some? && |x.keys.value| <= 100 && (forall k :: k in x.keys.value ==> parse(k).Some?)
    && (forall k :: k in x.weights ==> WeightWellformed(parse, x, k))
    && (forall j, k :: j in x.weights && k in x.weights && parse(j) == parse(k) ==> j == k)
  }

  predicate WeightWellformed(parse: Parse, x: Input, k: string)
    requires k in x.weights && x.accounts.Some?
  {
    && parse(k).Some? && 1 <= x.weights[k] <= 0x7fff_ffff
    && exists a :: a in x.accounts.value && parse(a) == parse(k)
  }

  lemma DistinctParses(parse: Parse, weightKeys: seq<string>)
    requires Distinct(weightKeys) && ParseAll(parse, weightKeys).Some?
    ensures Distinct(ParseAll(parse, weightKeys).value) <==>
              forall j, k :: j in weightKeys && k in weightKeys && parse(j) == parse(k) ==> j == k
  {
    hide ParseAll;
    ParseAllAt(parse, weightKeys);
    var canonical := ParseAll(parse, weightKeys).value;
    if Distinct(canonical) {
      forall j, k | j in weightKeys && k in weightKeys && parse(j) == parse(k) ensures j == k {
        var a :| 0 <= a < |weightKeys| && weightKeys[a] == j;
        var b :| 0 <= b < |weightKeys| && weightKeys[b] == k;
        assert canonical[a] == canonical[b];
      }
    } else {
      var a, b :| 0 <= a < b < |canonical| && canonical[a] == canonical[b];
      assert weightKeys[a] in weightKeys && weightKeys[b] in weightKeys && weightKeys[a] != weightKeys[b];
    }
  }

  lemma ValidatedIsWellformed(parse: Parse, x: Input, weightKeys: seq<string>)
    requires Listing(weightKeys, x.weights.Keys) && Validated(parse, x, weightKeys).Some?
    ensures Wellformed(parse, x)
  {
    hide Validated, ParseAll, Reweighed;
    var y := Validated(parse, x, weightKeys).value;
    ValidatedByLists(parse, x, weightKeys);
    ValidatedMeans(parse, x, weightKeys);
    DistinctParses(parse, weightKeys);
    forall k | k in x.weights ensures WeightWellformed(parse, x, k) {
      var i :| 0 <= i < |y.accounts.value| && y.accounts.value[i] == parse(k).value;
      assert x.accounts.value[i] in x.accounts.value && parse(x.accounts.value[i]) == parse(k);
    }
  }

  lemma WellformedParses(parse: Parse, x: Input, weightKeys: seq<string>)
    requires Listing(weightKeys, x.weights.Keys) && Wellformed(parse, x)
    ensures ParseAll(parse, [x.project] + x.accounts.value + x.keys.value + weightKeys).Some?
    ensures ParseAll(parse, weightKeys).Some? && Distinct(ParseAll(parse, weightKeys).value)
    ensures ParseOwner(parse, x.owner).Some?
  {
    hide ParseAll, WeightWellformed;
    var accts, ks := x.accounts.value, x.keys.value;
    var all := [x.project] + accts + ks + weightKeys;
    forall k | k in weightKeys ensures parse(k).Some? { WeightParses(parse, x, k); }
    ParseAllAt(parse, all);
    ParseAllAt(parse, weightKeys);
    assert forall i :: 0 <= i < |all| ==>
             all[i] == x.project || all[i] in accts || all[i] in ks || all[i] in weightKeys;
    DistinctParses(parse, weightKeys);
  }

  lemma MovedWeightsAreValid(parse: Parse, x: Input, accounts: seq<string>, w: map<string, int>)
    requires Wellformed(parse, x) && |accounts| == |x.accounts.value|
    requires forall i :: 0 <= i < |accounts| ==> parse(x.accounts.value[i]) == Some(accounts[i])
    requires forall k :: k in x.weights ==> parse(k).Some? && parse(k).value in w && w[parse(k).value] == x.weights[k]
    requires forall k :: k in w ==> exists j :: j in x.weights && parse(j) == Some(k)
    ensures forall k :: k in w ==> k in accounts && 1 <= w[k] <= 0x7fff_ffff
  {
    hide WeightWellformed;
    forall k | k in w ensures k in accounts && 1 <= w[k] <= 0x7fff_ffff {
      var j :| j in x.weights && parse(j) == Some(k);
      WeightIsInRange(parse, x, j);
      var a :| a in x.accounts.value && parse(a) == parse(j);
      var i :| 0 <= i < |accounts| && x.accounts.value[i] == a;
      assert accounts[i] == k;
    }
  }

  lemma WellformedIsValidated(parse: Parse, x: Input, weightKeys: seq<string>)
    requires Listing(weightKeys, x.weights.Keys) && Wellformed(parse, x)
    ensures Validated(parse, x, weightKeys).Some?
  {
    hide ParseAll, Reweighed, WeightWellformed, Distinct;
    var accts, ks := x.accounts.value, x.keys.value;
    WellformedParses(parse, x, weightKeys);
    SlicesAreParsed(parse, x.project, accts, ks, weightKeys);
    ParseAllLength(parse, weightKeys);
    WeightsMove(parse, x.weights, weightKeys);
    ParseAllAt(parse, accts);
    var ids := ParseAll(parse, [x.project] + accts + ks + weightKeys).value;
    var w := Reweighed(ids[1 + |accts| + |ks|..], weightKeys, x.weights);
    MovedWeightsAreValid(parse, x, ids[1..1 + |accts|], w);
  }

  lemma WeightParses(parse: Parse, x: Input, k: string)
    requires k in x.weights && x.accounts.Some? && WeightWellformed(parse, x, k)
    ensures parse(k).Some?
  {
  }

  lemma WeightIsInRange(parse: Parse, x: Input, k: string)
    requires k in x.weights && x.accounts.Some? && WeightWellformed(parse, x, k)
    ensures 1 <= x.weights[k] <= 0x7fff_ffff && exists a :: a in x.accounts.value && parse(a) == parse(k)
  {
  }

  /** An input is validated if and only if it is well formed, in whatever order
      its weights are listed. */
  lemma ValidatedExactlyWhen(parse: Parse, x: Input, weightKeys: seq<string>)
    requires Listing(weightKeys, x.weights.Keys)
    ensures Validated(parse, x, weightKeys).Some? <==> Wellformed(parse, x)
  {
    hide Validated, Wellformed;
    if Validated(parse, x, weightKeys).Some? {
      ValidatedIsWellformed(parse, x, weightKeys);
    } else if Wellformed(parse, x) {
      WellformedIsValidated(parse, x, weightKeys);
    }
  }

  // Saving.

  /** A pool's rows: olp.code_pools, olp.code_pool_accounts and olp.code_pool_keys. */
  datatype Pool = Pool(project: string, name: string, kind: Kind, owner: Option<string>, accounts: map<string, int>,
    keys: set<string>)

  /** What the tables beside the pool say: which accounts and keys belong to the
      project, who its members are, and who made a key. */
  datatype Project = Project(accounts: set<string>, keys: map<string, string>, members: set<string>)

  predicate Permitted(p: Project, x: Input)
    requires Valid(x)
  {
    && (x.owner.Some? ==> x.owner.value in p.members)
    && (forall a :: a in x.accounts.value ==> a in p.accounts)
    && (forall k :: k in x.keys.value ==> k in p.keys && (x.owner.Some? ==> p.keys[k] == x.owner.value))
  }

  /** max(1, weight), where an absent weight reads as zero. */
  function Weight(weights: map<string, int>, account: string): int {
    if account in weights && weights[account] > 1 then weights[account] else 1
  }

  /** The inserts, of which a repeated one does nothing. */
  function Assigned(accounts: seq<string>, weights: map<string, int>): map<string, int> {
    if accounts == [] then map[]
    else
      var before, a := Assigned(accounts[..|accounts| - 1], weights), accounts[|accounts| - 1];
      if a in before then before else before[a := Weight(weights, a)]
  }

  lemma {:induction false} AssignedAt(accounts: seq<string>, weights: map<string, int>)
    ensures var w := Assigned(accounts, weights);
            (forall a :: a in w <==> a in accounts) && forall a :: a in w ==> w[a] == Weight(weights, a)
  {
    if accounts != [] {
      var n := |accounts| - 1;
      AssignedAt(accounts[..n], weights);
      assert forall a :: a in accounts <==> a in accounts[..n] || a == accounts[n];
    }
  }

  function Elements(xs: seq<string>): set<string> {
    set x | x in xs
  }

  predicate Same(x: Input, before: Option<Pool>) {
    before.Some? ==> before.value.kind == x.kind && before.value.owner == x.owner
  }

  function Saved(parse: Parse, p: Project, before: Option<Pool>, x: Input, weightKeys: seq<string>): Option<Pool>
    requires Listing(weightKeys, x.weights.Keys)
  {
    var y := Validated(parse, x, weightKeys);
    if y.None? || !Permitted(p, y.value) || !Same(y.value, before) then None
    else
      var project := if before.Some? then before.value.project else y.value.project;
      Some(Pool(project, y.value.name, y.value.kind, y.value.owner,
        Assigned(y.value.accounts.value, y.value.weights), Elements(y.value.keys.value)))
  }

  /** The ids belong where they are assigned: the owner is a member, each account
      is the project's, and each key too and, in a personal pool, its owner's. */
  predicate Belongs(parse: Parse, p: Project, x: Input) {
    && (x.owner.Some? ==> parse(x.owner.value).Some? && parse(x.owner.value).value in p.members)
    && x.accounts.Some? && x.keys.Some?
    && (forall a :: a in x.accounts.value ==> parse(a).Some? && parse(a).value in p.accounts)
    && (forall k :: k in x.keys.value ==>
          parse(k).Some? && parse(k).value in p.keys
          && (x.owner.Some? ==> Some(p.keys[parse(k).value]) == parse(x.owner.value)))
  }

  lemma PermittedExactlyWhen(parse: Parse, p: Project, x: Input, weightKeys: seq<string>)
    requires Listing(weightKeys, x.weights.Keys) && Validated(parse, x, weightKeys).Some?
    ensures Valid(Validated(parse, x, weightKeys).value)
    ensures Permitted(p, Validated(parse, x, weightKeys).value) <==> Belongs(parse, p, x)
  {
    hide Validated;
    ValidatedMeans(parse, x, weightKeys);
    var y := Validated(parse, x, weightKeys).value;
    if Belongs(parse, p, x) {
      forall a | a in y.accounts.value ensures a in p.accounts {
        var i :| 0 <= i < |y.accounts.value| && y.accounts.value[i] == a;
        assert x.accounts.value[i] in x.accounts.value;
      }
      forall k | k in y.keys.value ensures k in p.keys && (y.owner.Some? ==> p.keys[k] == y.owner.value) {
        var i :| 0 <= i < |y.keys.value| && y.keys.value[i] == k;
        assert x.keys.value[i] in x.keys.value;
      }
    }
    if Permitted(p, y) {
      forall a | a in x.accounts.value ensures parse(a).Some? && parse(a).value in p.accounts {
        var i :| 0 <= i < |x.accounts.value| && x.accounts.value[i] == a;
        assert y.accounts.value[i] in y.accounts.value;
      }
      forall k | k in x.keys.value
        ensures parse(k).Some? && parse(k).value in p.keys
                && (x.owner.Some? ==> Some(p.keys[parse(k).value]) == parse(x.owner.value))
      {
        var i :| 0 <= i < |x.keys.value| && x.keys.value[i] == k;
        assert y.keys.value[i] in y.keys.value;
      }
    }
  }

  /** A pool is saved if and only if the input is well formed, its ids belong to
      the project, and kind and owner are those the pool had. It then has the
      accounts and keys listed, once each, an account with its weight or else 1,
      and keeps its project. */
  lemma SavedExactlyWhen(parse: Parse, p: Project, before: Option<Pool>, x: Input, weightKeys: seq<string>)
    requires Listing(weightKeys, x.weights.Keys)
    ensures var saved := Saved(parse, p, before, x, weightKeys);
            && (saved.Some? <==>
                  && Wellformed(parse, x) && Belongs(parse, p, x)
                  && (before.Some? ==>
                       before.value.kind == x.kind && Some(before.value.owner) == ParseOwner(parse, x.owner)))
            && (saved.Some? ==>
                  var pool := saved.value;
                  && (if before.Some? then pool.project == before.value.project
                     else parse(x.project) == Some(pool.project))
                  && pool.name == x.name && pool.kind == x.kind && ParseOwner(parse, x.owner) == Some(pool.owner)
                  && (forall a :: a in pool.accounts <==> exists b :: b in x.accounts.value && parse(b) == Some(a))
                  && (forall k :: k in pool.keys <==> exists b :: b in x.keys.value && parse(b) == Some(k))
                  && (forall b :: b in x.weights ==>
                       parse(b).value in pool.accounts && pool.accounts[parse(b).value] == x.weights[b])
                  && (forall a :: a in pool.accounts && (forall b :: b in x.weights ==> parse(b) != Some(a)) ==>
                       pool.accounts[a] == 1))
  {
    hide Validated, Wellformed, Belongs, Permitted, Assigned, Elements;
    ValidatedExactlyWhen(parse, x, weightKeys);
    if Validated(parse, x, weightKeys).Some? {
      ValidatedMeans(parse, x, weightKeys);
      PermittedExactlyWhen(parse, p, x, weightKeys);
      if Saved(parse, p, before, x, weightKeys).Some? {
        SavedAssigns(parse, x, Validated(parse, x, weightKeys).value);
      }
    }
  }

  lemma SavedAssigns(parse: Parse, x: Input, y: Input)
    requires Valid(y) && x.accounts.Some? && x.keys.Some?
    requires |y.accounts.value| == |x.accounts.value| && |y.keys.value| == |x.keys.value|
    requires forall i :: 0 <= i < |x.accounts.value| ==> parse(x.accounts.value[i]) == Some(y.accounts.value[i])
    requires forall i :: 0 <= i < |x.keys.value| ==> parse(x.keys.value[i]) == Some(y.keys.value[i])
    requires forall k :: k in x.weights ==>
               parse(k).Some? && parse(k).value in y.weights && y.weights[parse(k).value] == x.weights[k]
    requires forall k :: k in y.weights ==> exists j :: j in x.weights && parse(j) == Some(k)
    ensures var accounts := Assigned(y.accounts.value, y.weights);
            && (forall a :: a in accounts <==> exists b :: b in x.accounts.value && parse(b) == Some(a))
            && (forall k :: k in Elements(y.keys.value) <==> exists b :: b in x.keys.value && parse(b) == Some(k))
            && (forall b :: b in x.weights ==> parse(b).value in accounts && accounts[parse(b).value] == x.weights[b])
            && (forall a :: a in accounts && (forall b :: b in x.weights ==> parse(b) != Some(a)) ==> accounts[a] == 1)
  {
    hide Assigned;
    AssignedAt(y.accounts.value, y.weights);
    SameParses(parse, x.accounts.value, y.accounts.value);
    SameParses(parse, x.keys.value, y.keys.value);
  }

  lemma SameParses(parse: Parse, xs: seq<string>, ys: seq<string>)
    requires |ys| == |xs| && forall i :: 0 <= i < |xs| ==> parse(xs[i]) == Some(ys[i])
    ensures forall y :: y in ys <==> exists x :: x in xs && parse(x) == Some(y)
  {
    forall y | y in ys ensures exists x :: x in xs && parse(x) == Some(y) {
      var i :| 0 <= i < |ys| && ys[i] == y;
      assert xs[i] in xs;
    }
    forall x | x in xs ensures parse(x).Some? && parse(x).value in ys {
      var i :| 0 <= i < |xs| && xs[i] == x;
      assert ys[i] in ys;
    }
  }

  /** The pool as a client reads it: each id once, and a weight for every account. */
  predicate Reads(pool: Pool, x: Input) {
    && x.project == pool.project && x.name == pool.name && x.validName && x.kind == pool.kind && x.owner == pool.owner
    && x.accounts.Some? && Listing(x.accounts.value, pool.accounts.Keys)
    && x.keys.Some? && Listing(x.keys.value, pool.keys)
    && x.weights == pool.accounts
  }

  lemma {:induction false} ListingIsShort(xs: seq<string>, s: set<string>, ys: seq<string>)
    requires Listing(xs, s) && forall x :: x in s ==> x in ys
    ensures |xs| <= |ys|
    decreases |xs|
  {
    if xs != [] {
      var n := |xs| - 1;
      var x := xs[n];
      assert x in xs;
      var i :| 0 <= i < |ys| && ys[i] == x;
      var ys' := ys[..i] + ys[i + 1..];
      forall y | y in s - {x} ensures y in ys' {
        var j :| 0 <= j < |ys| && ys[j] == y;
        if j < i {
          assert ys'[j] == y;
        } else {
          assert ys'[j - 1] == y;
        }
      }
      assert Listing(xs[..n], s - {x}) by {
        forall y | y in s - {x} ensures y in xs[..n] {
          var j :| 0 <= j < |xs| && xs[j] == y;
          assert xs[..n][j] == y;
        }
        forall y | y in xs[..n] ensures y in s - {x} {
          var j :| 0 <= j < n && xs[j] == y;
        }
      }
      ListingIsShort(xs[..n], s - {x}, ys');
    }
  }

  lemma ReadingIsSettled(parse: Parse, y: Input, pool: Pool, x: Input)
    requires Settled(parse, y) && Reads(pool, x)
    requires pool == Pool(y.project, y.name, y.kind, y.owner, Assigned(y.accounts.value, y.weights),
             Elements(y.keys.value))
    ensures Settled(parse, x)
  {
    AssignedAt(y.accounts.value, y.weights);
    ListingIsShort(x.accounts.value, pool.accounts.Keys, y.accounts.value);
    ListingIsShort(x.keys.value, pool.keys, y.keys.value);
    forall a | a in pool.accounts ensures parse(a) == Some(a) {
      var i :| 0 <= i < |y.accounts.value| && y.accounts.value[i] == a;
    }
    forall k | k in pool.keys ensures parse(k) == Some(k) {
      var i :| 0 <= i < |y.keys.value| && y.keys.value[i] == k;
    }
    forall i | 0 <= i < |x.accounts.value| ensures parse(x.accounts.value[i]) == Some(x.accounts.value[i]) {
      assert x.accounts.value[i] in x.accounts.value;
    }
    forall i | 0 <= i < |x.keys.value| ensures parse(x.keys.value[i]) == Some(x.keys.value[i]) {
      assert x.keys.value[i] in x.keys.value;
    }
  }

  /** Saving a pool, new or over one of the same project, reading it back and
      saving that reading is accepted and leaves the same accounts, weights and
      keys. */
  lemma SavingAReadingChangesNothing(
    parse: Parse, p: Project, before: Option<Pool>, input: Input, weightKeys: seq<string>, x: Input, again: seq<string>)
    requires Canonical(parse) && Listing(weightKeys, input.weights.Keys)
    requires before.Some? ==> parse(input.project) == Some(before.value.project)
    requires Saved(parse, p, before, input, weightKeys).Some?
    requires var pool := Saved(parse, p, before, input, weightKeys).value;
             Reads(pool, x) && Listing(again, x.weights.Keys)
    ensures var pool := Saved(parse, p, before, input, weightKeys).value;
            Saved(parse, p, Some(pool), x, again) == Some(pool)
  {
    hide Validated, Settled;
    var y := Validated(parse, input, weightKeys).value;
    var pool := Saved(parse, p, before, input, weightKeys).value;
    ValidatedMeans(parse, input, weightKeys);
    ValidatedIsSettled(parse, input, weightKeys);
    ReadingIsSettled(parse, y, pool, x);
    SettledStays(parse, x, again);
    assert Valid(x) && Valid(y) by { SettledIsValid(parse, x); SettledIsValid(parse, y); }
    ReadingAssignsTheSame(p, y, pool, x);
    hide Permitted, Assigned, Elements, Reads, Valid;
  }

  lemma ReadingAssignsTheSame(p: Project, y: Input, pool: Pool, x: Input)
    requires Valid(x) && Valid(y) && Reads(pool, x) && Permitted(p, y) && pool.owner == y.owner
    requires pool.accounts == Assigned(y.accounts.value, y.weights) && pool.keys == Elements(y.keys.value)
    ensures Assigned(x.accounts.value, x.weights) == pool.accounts && Elements(x.keys.value) == pool.keys
    ensures Permitted(p, x)
  {
    AssignedAt(y.accounts.value, y.weights);
    AssignedAt(x.accounts.value, x.weights);
  }

  lemma SettledIsValid(parse: Parse, x: Input)
    requires Settled(parse, x)
    ensures Valid(x)
  {
  }

  /** The rows of the pools, rewritten in place by SaveCodePool. */
  class Store {
    const parse: Parse
    var pools: map<Id, Pool>

    constructor (parse: Parse)
      ensures this.parse == parse && pools == map[]
    {
      this.parse := parse;
      pools := map[];
    }

    /** The loops of SaveCodePool delete and reinsert the assignments. */
    method Save(id: Id, p: Project, input: Input, weightKeys: seq<string>) returns (ok: bool)
      requires Listing(weightKeys, input.weights.Keys)
      modifies this`pools
      ensures var before := if id in old(pools) then Some(old(pools)[id]) else None;
              var saved := Saved(parse, p, before, input, weightKeys);
              ok == saved.Some? && pools == if ok then old(pools)[id := saved.value] else old(pools)
    {
      hide Validated, Valid;
      var y := Validated(parse, input, weightKeys);
      if y.None? { return false; }
      assert Valid(y.value) by { ValidatedMeans(parse, input, weightKeys); }
      ValidHasLists(y.value);
      var x := y.value;
      if !Permitted(p, x) { return false; }
      var project := x.project;
      if id in pools {
        if pools[id].kind != x.kind || pools[id].owner != x.owner { return false; }
        project := pools[id].project;
      }
      var accounts: map<string, int> := map[];
      for i := 0 to |x.accounts.value|
        invariant accounts == Assigned(x.accounts.value[..i], x.weights)
      {
        assert x.accounts.value[..i + 1][..i] == x.accounts.value[..i];
        var a := x.accounts.value[i];
        if a !in accounts {
          accounts := accounts[a := Weight(x.weights, a)];
        }
      }
      assert x.accounts.value[..|x.accounts.value|] == x.accounts.value;
      var keys: set<string> := {};
      for i := 0 to |x.keys.value|
        invariant keys == Elements(x.keys.value[..i])
      {
        assert x.keys.value[..i + 1] == x.keys.value[..i] + [x.keys.value[i]];
        keys := keys + {x.keys.value[i]};
      }
      assert x.keys.value[..|x.keys.value|] == x.keys.value;
      pools := pools[id := Pool(project, x.name, x.kind, x.owner, accounts, keys)];
      return true;
    }
  }
}
