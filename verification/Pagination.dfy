/** Keyset pagination of internal/access/http.go: a list is walked page by page
    from the largest id down while other transactions insert and delete rows. An
    id stands for the number it is ordered by, and a cursor for the id it encodes. */
module Pagination {
  import opened Common

  /** The cursor a walk starts from, the largest UUID there is. */
  const TOP: nat := 0xffffffff_ffff_ffff_ffff_ffffffffffff
  const DEFAULT_LIMIT: nat := 50

  datatype Page = Page(limit: nat, before: nat)

  /** A query parameter: absent, unreadable, or a number. */
  datatype Parameter = Absent | Unreadable | Number(value: int)

  /** The page a request asks for. */
  function Asked(limit: Parameter, cursor: Parameter): (p: Option<Page>)
    ensures p.Some? ==> 1 <= p.value.limit <= 200 && p.value.before <= TOP
    ensures p.Some? ==> p.value.limit == (if limit.Number? then limit.value else 50)
    ensures p.Some? ==> p.value.before == (if cursor.Number? then cursor.value else TOP)
    ensures p.None? <==> limit.Unreadable? || cursor.Unreadable?
                         || (limit.Number? && !(1 <= limit.value <= 200))
                            || (cursor.Number? && !(0 <= cursor.value <= TOP))
  {
    if limit.Unreadable? || (limit.Number? && (limit.value < 1 || limit.value > 200)) then None
    else if cursor.Unreadable? || (cursor.Number? && (cursor.value < 0 || cursor.value > TOP)) then None
    else Some(Page(if limit.Number? then limit.value else DEFAULT_LIMIT, if cursor.Number? then cursor.value else TOP))
  }

  /** The largest row below `before`. */
  function Largest(rows: set<nat>, before: nat): (m: Option<nat>)
    ensures m.Some? ==> m.value in rows && m.value < before && forall x :: x in rows && x < before ==> x <= m.value
    ensures m.None? ==> forall x :: x in rows ==> x >= before
  {
    if before == 0 then None
    else if before - 1 in rows then Some(before - 1)
    else Largest(rows, before - 1)
  }

  /** WHERE id < before ORDER BY id DESC LIMIT n. */
  function Select(rows: set<nat>, before: nat, n: nat): seq<nat>
    decreases n
  {
    if n == 0 then []
    else
      match Largest(rows, before)
      case None => []
      case Some(m) => [m] + Select(rows, m, n - 1)
  }

  datatype Listing = Listing(items: seq<nat>, next: Option<nat>)

  /** ListReplyBy: one row more than the page tells whether there is a next one. */
  function Listed(items: seq<nat>, limit: nat): Listing
    requires limit > 0
  {
    if |items| > limit then Listing(items[..limit], Some(items[limit - 1])) else Listing(items, None)
  }

  function Read(rows: set<nat>, p: Page): Listing
    requires p.limit > 0
  {
    Listed(Select(rows, p.before, p.limit + 1), p.limit)
  }

  predicate Descending(items: seq<nat>) {
    forall i, j :: 0 <= i < j < |items| ==> items[i] > items[j]
  }

  lemma {:induction false} SelectIsDescending(rows: set<nat>, before: nat, n: nat)
    ensures var s := Select(rows, before, n);
            && |s| <= n && Descending(s) && forall x :: x in s ==> x in rows && x < before
    decreases n
  {
    if n > 0 && Largest(rows, before).Some? {
      var m := Largest(rows, before).value;
      SelectIsDescending(rows, m, n - 1);
      var rest := Select(rows, m, n - 1);
      assert forall j :: 0 <= j < |rest| ==> rest[j] in rest;
    }
  }

  /** A row below the cursor is selected, or lies below everything selected. */
  lemma {:induction false} SelectMissesOnlyTheRest(rows: set<nat>, before: nat, n: nat, x: nat)
    requires x in rows && x < before
    ensures var s := Select(rows, before, n); x in s || (|s| == n && forall y :: y in s ==> x < y)
    decreases n
  {
    if n > 0 {
      var m := Largest(rows, before).value;
      if x != m {
        SelectMissesOnlyTheRest(rows, m, n - 1, x);
        assert Select(rows, before, n) == [m] + Select(rows, m, n - 1);
        assert forall y :: y in Select(rows, m, n - 1) ==> y in Select(rows, before, n);
      } else {
        assert Select(rows, before, n)[0] == m;
      }
    }
  }

  lemma PageIsDescending(rows: set<nat>, p: Page)
    requires p.limit > 0
    ensures var l := Read(rows, p);
            && |l.items| <= p.limit && Descending(l.items)
            && (forall x :: x in l.items ==> x in rows && x < p.before)
            && (l.next.Some? ==> l.items != [] && l.next.value == l.items[|l.items| - 1] && l.next.value < p.before)
  {
    hide Select;
    var s := Select(rows, p.before, p.limit + 1);
    SelectIsDescending(rows, p.before, p.limit + 1);
    assert |s| > p.limit ==> s[p.limit - 1] in s;
  }

  lemma PageMissesOnlyTheRest(rows: set<nat>, p: Page, x: nat)
    requires p.limit > 0 && x in rows && x < p.before && x !in Read(rows, p).items
    ensures Read(rows, p).next.Some? && x < Read(rows, p).next.value
  {
    hide Select;
    var s := Select(rows, p.before, p.limit + 1);
    SelectIsDescending(rows, p.before, p.limit + 1);
    SelectMissesOnlyTheRest(rows, p.before, p.limit + 1, x);
    var items := Read(rows, p).items;
    assert forall k :: 0 <= k < |items| ==> items[k] == s[k];
    if x in s {
      var i :| 0 <= i < |s| && s[i] == x;
      assert i >= |items|;
    } else {
      assert s[p.limit - 1] in s;
    }
  }

  /** What one page promises. */
  lemma PageIsRight(rows: set<nat>, p: Page)
    requires p.limit > 0
    ensures var l := Read(rows, p);
            && |l.items| <= p.limit && Descending(l.items)
            && (forall x :: x in l.items ==> x in rows && x < p.before)
            && (l.next.Some? ==> l.items != [] && l.next.value == l.items[|l.items| - 1] && l.next.value < p.before)
            && (forall x :: x in rows && x < p.before && x !in l.items ==> l.next.Some? && x < l.next.value)
  {
    hide Read;
    PageIsDescending(rows, p);
    forall x | x in rows && x < p.before && x !in Read(rows, p).items
      ensures Read(rows, p).next.Some? && x < Read(rows, p).next.value
    {
      PageMissesOnlyTheRest(rows, p, x);
    }
  }

  /** One request of a walk: the rows as they are when it is answered, and the
      page size it asks for. */
  datatype Visit = Visit(rows: set<nat>, limit: nat)

  predicate Sized(visits: seq<Visit>) {
    forall v :: v in visits ==> v.limit > 0
  }

  datatype Walked = Walked(items: seq<nat>, finished: bool)

  /** Following next_cursor from `before` until there is none or visits run out. */
  function Walk(visits: seq<Visit>, before: nat): Walked
    requires Sized(visits)
    decreases |visits|
  {
    if visits == [] then Walked([], false)
    else
      assert visits[0] in visits;
      var l := Read(visits[0].rows, Page(visits[0].limit, before));
      if l.next.None? then Walked(l.items, true)
      else
        var rest := Walk(visits[1..], l.next.value);
        Walked(l.items + rest.items, rest.finished)
  }

  /** The walk's own loop: ask for a page, keep its items, follow its cursor. */
  method WalkPages(visits: seq<Visit>, before: nat) returns (items: seq<nat>, finished: bool)
    requires Sized(visits)
    ensures Walked(items, finished) == Walk(visits, before)
  {
    items, finished := [], false;
    var cursor, i := before, 0;
    while i < |visits| && !finished
      invariant 0 <= i <= |visits| && Sized(visits[i..])
      invariant Walk(visits, before) ==
                if finished then Walked(items, true)
                else Walked(items + Walk(visits[i..], cursor).items, Walk(visits[i..], cursor).finished)
    {
      assert visits[i] in visits;
      assert visits[i..][0] == visits[i] && visits[i..][1..] == visits[i + 1..];
      var l := Read(visits[i].rows, Page(visits[i].limit, cursor));
      ghost var kept := items;
      items := items + l.items;
      if l.next.None? {
        finished := true;
      } else {
        cursor := l.next.value;
        assert kept + (l.items + Walk(visits[i + 1..], cursor).items) == items + Walk(visits[i + 1..], cursor).items;
      }
      i := i + 1;
    }
    if !finished {
      assert visits[i..] == [];
    }
  }

  /** Every walk goes strictly down, so it lists no row twice. */
  lemma {:induction false} WalkIsDescending(visits: seq<Visit>, before: nat)
    requires Sized(visits)
    ensures Descending(Walk(visits, before).items) && forall x :: x in Walk(visits, before).items ==> x < before
    decreases |visits|
  {
    if visits != [] {
      assert visits[0] in visits;
      var p := Page(visits[0].limit, before);
      var l := Read(visits[0].rows, p);
      PageIsRight(visits[0].rows, p);
      if l.next.Some? {
        hide Select, Largest;
        WalkIsDescending(visits[1..], l.next.value);
        var rest := Walk(visits[1..], l.next.value).items;
        forall i, j | 0 <= i < j < |l.items + rest| ensures (l.items + rest)[i] > (l.items + rest)[j] {
          if i < |l.items| <= j {
            assert rest[j - |l.items|] in rest;
            assert l.items[i] >= l.next.value;
          }
        }
      }
    }
  }

  /** A row that is there throughout is listed by every walk that ends. */
  lemma {:induction false} WalkListsWhatStays(visits: seq<Visit>, before: nat, x: nat)
    requires Sized(visits) && x < before && Walk(visits, before).finished
    requires forall v :: v in visits ==> x in v.rows
    ensures x in Walk(visits, before).items
    decreases |visits|
  {
    assert visits[0] in visits;
    var p := Page(visits[0].limit, before);
    var l := Read(visits[0].rows, p);
    PageIsRight(visits[0].rows, p);
    if x !in l.items {
      assert forall v :: v in visits[1..] ==> v in visits;
      WalkListsWhatStays(visits[1..], l.next.value, x);
    }
  }

  /** A walk only lists rows that some page saw. */
  lemma {:induction false} WalkListsWhatWas(visits: seq<Visit>, before: nat, x: nat)
    requires Sized(visits) && x in Walk(visits, before).items
    ensures exists v :: v in visits && x in v.rows
    decreases |visits|
  {
    assert visits[0] in visits;
    var p := Page(visits[0].limit, before);
    var l := Read(visits[0].rows, p);
    PageIsRight(visits[0].rows, p);
    if x !in l.items {
      WalkListsWhatWas(visits[1..], l.next.value, x);
      var v :| v in visits[1..] && x in v.rows;
      assert v in visits;
    }
  }

  /** The cursor falls with every page, so a walk ends however the rows change. */
  lemma {:induction false} WalkEnds(visits: seq<Visit>, before: nat)
    requires Sized(visits) && |visits| > before
    ensures Walk(visits, before).finished
    decreases |visits|
  {
    assert visits[0] in visits;
    var p := Page(visits[0].limit, before);
    var l := Read(visits[0].rows, p);
    PageIsRight(visits[0].rows, p);
    if l.next.Some? {
      WalkEnds(visits[1..], l.next.value);
    }
  }

  function Count(items: seq<nat>, x: nat): nat {
    if items == [] then 0 else Count(items[..|items| - 1], x) + if items[|items| - 1] == x then 1 else 0
  }

  lemma {:induction false} DescendingCounts(items: seq<nat>, x: nat)
    requires Descending(items)
    ensures Count(items, x) == if x in items then 1 else 0
  {
    if items != [] {
      var front := items[..|items| - 1];
      DescendingCounts(front, x);
      assert forall i :: 0 <= i < |front| ==> items[i] > items[|items| - 1];
      assert x in items <==> x in front || x == items[|items| - 1];
    }
  }

  /** A walk from the top that ends lists each row present throughout exactly
      once, and no row more than once, for any page sizes; only a row with the
      largest id is never listed. */
  lemma EveryStayingRowOnce(visits: seq<Visit>, x: nat)
    requires Sized(visits) && Walk(visits, TOP).finished
    ensures Count(Walk(visits, TOP).items, x) <= 1
    ensures x >= TOP ==> Count(Walk(visits, TOP).items, x) == 0
    ensures (forall v :: v in visits ==> x in v.rows) ==> Count(Walk(visits, TOP).items, x) == if x < TOP then 1 else 0
  {
    WalkIsDescending(visits, TOP);
    DescendingCounts(Walk(visits, TOP).items, x);
    if x < TOP && forall v :: v in visits ==> x in v.rows {
      WalkListsWhatStays(visits, TOP, x);
    }
  }
}
