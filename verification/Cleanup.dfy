/**
 * The loop shared by the image sweeps: page through the eligible rows by id with
 * FOR UPDATE SKIP LOCKED, delete each object, then delete the rows whose object went.
 * Which rows a page may show (eligible and not locked by somebody else) can change from batch to
 * batch, so it is a parameter of the batch number; so is the fate of each storage delete.
 */
module Cleanup {
  import opened Options
  import Pages

  type Id = nat
  type Key = nat

  datatype Image = Image(id: Id, key: Key)

  /** A storage delete that raises may still have removed the object. */
  datatype Fate = Deleted | Raised(objectGone: bool)

  function Elements(s: seq<Image>): set<Image> { set r | r in s }

  /** The elements of `s` that are in `keep`, in the order of `s`. */
  function Select(s: seq<Image>, keep: set<Image>): seq<Image> {
    if s == [] then [] else (if s[0] in keep then [s[0]] else []) + Select(s[1..], keep)
  }

  predicate Beyond(r: Image, last: Option<Id>) { last.None? || r.id > last.value }

  function After(rows: seq<Image>, last: Option<Id>): set<Image> { set r | r in rows && Beyond(r, last) }

  predicate Under(a: Image, b: Image) { a.id < b.id }

  predicate ById(s: seq<Image>) { forall i, j {:trigger Under(s[i], s[j])} :: 0 <= i < j < |s| ==> Under(s[i], s[j]) }

  function Shown(rows: seq<Image>, last: Option<Id>, ids: set<Id>): set<Image> {
    set r | r in After(rows, last) && r.id in ids
  }

  /** What a batch fetches when it can see the rows `ids`. */
  function Page(rows: seq<Image>, last: Option<Id>, limit: nat, ids: set<Id>): seq<Image> {
    Pages.Take(Select(rows, Shown(rows, last, ids)), limit)
  }

  /** The rows that the batches from number `k` on fetch, one batch after the other. */
  ghost function Visited(rows: seq<Image>, last: Option<Id>, limit: nat, k: nat, shown: nat -> set<Id>): seq<Image>
    decreases After(rows, last)
  {
    var page := Page(rows, last, limit, shown(k));
    if |page| < limit || page == [] then page else
      PageAdvances(rows, last, limit, shown(k));
      page + Visited(rows, Some(page[|page| - 1].id), limit, k + 1, shown)
  }

  // ---- order ----------------------------------------------------------------------------------------------

  lemma HeadIsLeast(s: seq<Image>, r: Image)
    requires ById(s) && r in s
    ensures r == s[0] || Under(s[0], r)
    ensures r in s[1..] <==> r != s[0]
  {
    var j :| 0 <= j < |s| && s[j] == r;
    assert forall i :: 0 < i < |s| ==> Under(s[0], s[i]);
  }

  lemma LastIsGreatest(s: seq<Image>, r: Image)
    requires ById(s) && r in s
    ensures r == s[|s| - 1] || Under(r, s[|s| - 1])
  {
    var j :| 0 <= j < |s| && s[j] == r;
    assert j < |s| - 1 ==> Under(s[j], s[|s| - 1]);
  }

  lemma UniqueId(s: seq<Image>, a: Image, b: Image)
    requires ById(s) && a in s && b in s && a.id == b.id
    ensures a == b
  {
    var i :| 0 <= i < |s| && s[i] == a;
    var j :| 0 <= j < |s| && s[j] == b;
    assert (i < j ==> Under(s[i], s[j])) && (j < i ==> Under(s[j], s[i]));
  }

  lemma TakenOrBeyond(s: seq<Image>, n: nat, r: Image)
    requires ById(s) && r in s
    ensures r in Pages.Take(s, n) || (|s| > n && (n > 0 ==> Under(s[n - 1], r)))
  {
    var j :| 0 <= j < |s| && s[j] == r;
    assert 0 < n <= j ==> Under(s[n - 1], s[j]);
    assert j < n < |s| ==> s[..n][j] == r;
  }

  // ---- filters -----------------------------------------------------------------------------------------

  lemma {:induction false} Selected(s: seq<Image>, keep: set<Image>, r: Image)
    ensures r in Select(s, keep) <==> r in s && r in keep
  {
    if s != [] {
      Selected(s[1..], keep, r);
      assert s == [s[0]] + s[1..];
    }
  }

  lemma {:induction false} SelectedById(s: seq<Image>, keep: set<Image>)
    requires ById(s)
    ensures ById(Select(s, keep))
  {
    if s != [] {
      SelectedById(s[1..], keep);
      forall r | r in Select(s[1..], keep) ensures Under(s[0], r) {
        Selected(s[1..], keep, r);
        HeadIsLeast(s, r);
        assert forall i :: 0 < i < |s| ==> Under(s[0], s[i]);
      }
    }
  }

  lemma {:induction false} SelectAgrees(s: seq<Image>, keep: set<Image>, keep': set<Image>)
    requires forall r :: r in s ==> (r in keep <==> r in keep')
    ensures Select(s, keep) == Select(s, keep')
  {
    if s != [] { SelectAgrees(s[1..], keep, keep'); }
  }

  lemma {:induction false} SelectTwice(s: seq<Image>, keep: set<Image>, keep': set<Image>)
    ensures Select(Select(s, keep), keep') == Select(s, keep * keep')
  {
    if s != [] {
      SelectTwice(s[1..], keep, keep');
      if s[0] in keep {
        assert Select(s, keep)[1..] == Select(s[1..], keep);
      } else {
        assert Select(s, keep) == Select(s[1..], keep);
      }
    }
  }

  lemma {:induction false} SelectAll(s: seq<Image>, keep: set<Image>)
    requires forall r :: r in s ==> r in keep
    ensures Select(s, keep) == s
  {
    if s != [] { SelectAll(s[1..], keep); }
  }

  lemma {:induction false} SelectAppend(s: seq<Image>, t: seq<Image>, keep: set<Image>)
    ensures Select(s + t, keep) == Select(s, keep) + Select(t, keep)
  {
    if s == [] {
      assert s + t == t;
    } else {
      SelectAppend(s[1..], t, keep);
      assert (s + t)[1..] == s[1..] + t && (s + t)[0] == s[0];
      var head := if s[0] in keep then [s[0]] else [];
      assert head + (Select(s[1..], keep) + Select(t, keep)) == head + Select(s[1..], keep) + Select(t, keep);
    }
  }

  lemma {:induction false} SelectSplits(s: seq<Image>, keep: set<Image>, drop: set<Image>)
    requires forall r :: r in s ==> (r in keep <==> r !in drop)
    ensures |Select(s, keep)| + |Select(s, drop)| == |s|
  {
    if s != [] { SelectSplits(s[1..], keep, drop); }
  }

  lemma {:induction false} NoneSelected(s: seq<Image>, keep: set<Image>)
    requires keep == {}
    ensures Select(s, keep) == []
  {
    if s != [] { NoneSelected(s[1..], keep); }
  }

  lemma SelectOne(r: Image, keep: set<Image>)
    ensures Select([r], keep) == if r in keep then [r] else []
  {
    assert [r][1..] == [];
  }

  lemma NoElements(s: seq<Image>)
    ensures s == [] <==> Elements(s) == {}
  {
    if s != [] { assert s[0] in Elements(s); }
  }

  lemma {:induction false} SameMembersSameList(s: seq<Image>, t: seq<Image>)
    requires ById(s) && ById(t) && Elements(s) == Elements(t)
    ensures s == t
  {
    NoElements(s);
    NoElements(t);
    if s == [] {
    } else {
      assert s[0] in Elements(t) && t[0] in Elements(s);
      HeadIsLeast(s, t[0]);
      HeadIsLeast(t, s[0]);
      forall r ensures r in s[1..] <==> r in t[1..] {
        if r in s || r in t {
          assert r in Elements(s) && r in Elements(t);
          HeadIsLeast(s, r);
          HeadIsLeast(t, r);
        }
      }
      SameMembersSameList(s[1..], t[1..]);
    }
  }

  // ---- what the batches visit --------------------------------------------------------------------------

  lemma PageMember(rows: seq<Image>, last: Option<Id>, limit: nat, ids: set<Id>, r: Image)
    requires r in Page(rows, last, limit, ids)
    ensures r in rows && Beyond(r, last) && r.id in ids
  {
    Selected(rows, Shown(rows, last, ids), r);
  }

  lemma PageById(rows: seq<Image>, last: Option<Id>, limit: nat, ids: set<Id>)
    requires ById(rows)
    ensures ById(Page(rows, last, limit, ids))
  {
    SelectedById(rows, Shown(rows, last, ids));
  }

  /** The cursor ends up behind no row of the page. */
  lemma PageBehind(rows: seq<Image>, last: Option<Id>, limit: nat, ids: set<Id>, r: Image)
    requires ById(rows) && Page(rows, last, limit, ids) != []
    ensures var page := Page(rows, last, limit, ids);
            var next := Some(page[|page| - 1].id);
            (r in page ==> !Beyond(r, next)) && (Beyond(r, next) ==> Beyond(r, last))
  {
    var page := Page(rows, last, limit, ids);
    PageById(rows, last, limit, ids);
    PageMember(rows, last, limit, ids, page[|page| - 1]);
    if r in page { LastIsGreatest(page, r); }
  }

  lemma PageAdvances(rows: seq<Image>, last: Option<Id>, limit: nat, ids: set<Id>)
    requires Page(rows, last, limit, ids) != []
    ensures var page := Page(rows, last, limit, ids);
            After(rows, Some(page[|page| - 1].id)) < After(rows, last)
  {
    var page := Page(rows, last, limit, ids);
    var x := page[|page| - 1];
    PageMember(rows, last, limit, ids, x);
    assert x in After(rows, last) && x !in After(rows, Some(x.id));
  }

  /** A shown row that a page leaves out lies beyond a full page. */
  lemma PageReaches(rows: seq<Image>, last: Option<Id>, limit: nat, ids: set<Id>, r: Image)
    requires ById(rows) && r in rows && Beyond(r, last) && r.id in ids
    ensures var page := Page(rows, last, limit, ids);
            r in page || (|page| == limit && (limit > 0 ==> Beyond(r, Some(page[limit - 1].id))))
  {
    SelectedById(rows, Shown(rows, last, ids));
    Selected(rows, Shown(rows, last, ids), r);
    TakenOrBeyond(Select(rows, Shown(rows, last, ids)), limit, r);
  }

  /** A full page is followed by the visits from its last row on. */
  lemma VisitedStep(rows: seq<Image>, last: Option<Id>, limit: nat, k: nat, shown: nat -> set<Id>, page: seq<Image>)
    requires page == Page(rows, last, limit, shown(k))
    ensures |page| < limit || page == [] ==> Visited(rows, last, limit, k, shown) == page
    ensures |page| >= limit && page != [] ==>
              && After(rows, Some(page[|page| - 1].id)) < After(rows, last)
              && Visited(rows, last, limit, k, shown) ==
                 page + Visited(rows, Some(page[|page| - 1].id), limit, k + 1, shown)
  {
    if page != [] { PageAdvances(rows, last, limit, shown(k)); }
  }

  lemma {:induction false} VisitedMember(rows: seq<Image>, last: Option<Id>, limit: nat, k: nat,
                                         shown: nat -> set<Id>, r: Image)
    requires r in Visited(rows, last, limit, k, shown)
    ensures r in rows && Beyond(r, last) && exists j :: j >= k && r.id in shown(j)
    decreases After(rows, last)
  {
    var page := Page(rows, last, limit, shown(k));
    if r in page {
      PageMember(rows, last, limit, shown(k), r);
    } else {
      PageAdvances(rows, last, limit, shown(k));
      PageMember(rows, last, limit, shown(k), page[|page| - 1]);
      VisitedMember(rows, Some(page[|page| - 1].id), limit, k + 1, shown, r);
    }
  }

  lemma JoinById(s: seq<Image>, t: seq<Image>, cut: Id)
    requires ById(s) && ById(t)
    requires (forall r :: r in s ==> r.id <= cut) && (forall r :: r in t ==> r.id > cut)
    ensures ById(s + t)
  {
  }

  /** Rows come in id order, so each at most once. */
  lemma {:induction false} VisitsInOrder(rows: seq<Image>, last: Option<Id>, limit: nat, k: nat, shown: nat -> set<Id>)
    requires ById(rows)
    ensures ById(Visited(rows, last, limit, k, shown))
    decreases After(rows, last)
  {
    var page := Page(rows, last, limit, shown(k));
    PageById(rows, last, limit, shown(k));
    if !(|page| < limit || page == []) {
      PageAdvances(rows, last, limit, shown(k));
      var next := Some(page[|page| - 1].id);
      var rest := Visited(rows, next, limit, k + 1, shown);
      VisitsInOrder(rows, next, limit, k + 1, shown);
      forall r | r in page ensures r.id <= next.value { PageBehind(rows, last, limit, shown(k), r); }
      forall r | r in rest ensures r.id > next.value { VisitedMember(rows, next, limit, k + 1, shown, r); }
      JoinById(page, rest, next.value);
    }
  }

  ghost predicate AlwaysShown(shown: nat -> set<Id>, k: nat, id: Id) { forall j :: j >= k ==> id in shown(j) }

  /** No starvation: a row that every batch could see is visited, however many earlier deletes fail. */
  lemma {:induction false} VisitsEveryShownRow(rows: seq<Image>, last: Option<Id>, limit: nat, k: nat,
                                               shown: nat -> set<Id>, r: Image)
    requires ById(rows) && limit > 0
    requires r in rows && Beyond(r, last) && AlwaysShown(shown, k, r.id)
    ensures r in Visited(rows, last, limit, k, shown)
    decreases After(rows, last)
  {
    var page := Page(rows, last, limit, shown(k));
    PageReaches(rows, last, limit, shown(k), r);
    VisitedStep(rows, last, limit, k, shown, page);
    if r !in page { VisitsEveryShownRow(rows, Some(page[limit - 1].id), limit, k + 1, shown, r); }
  }

  /** When no lock and no eligibility changes under way, the visits are all shown rows, once each. */
  lemma VisitsExactlyTheShownRows(rows: seq<Image>, limit: nat, shown: nat -> set<Id>, ids: set<Id>)
    requires ById(rows) && limit > 0 && forall j :: shown(j) == ids
    ensures Visited(rows, None, limit, 0, shown) == Select(rows, Shown(rows, None, ids))
  {
    var visited, all := Visited(rows, None, limit, 0, shown), Select(rows, Shown(rows, None, ids));
    VisitsInOrder(rows, None, limit, 0, shown);
    SelectedById(rows, Shown(rows, None, ids));
    forall r ensures r in visited <==> r in all {
      Selected(rows, Shown(rows, None, ids), r);
      if r in visited { VisitedMember(rows, None, limit, 0, shown, r); }
      if r in all { VisitsEveryShownRow(rows, None, limit, 0, shown, r); }
    }
    SameMembersSameList(visited, all);
  }

  // ---- the loop ------------------------------------------------------------------------------------------

  function Successes(done: seq<Image>, fate: Key -> Fate): set<Image> { set r | r in done && fate(r.key).Deleted? }

  function FailedOf(done: seq<Image>, fate: Key -> Fate): set<Image> { set r | r in done && fate(r.key).Raised? }

  /** The rows that stay once the successes among `done` are deleted. */
  function Remaining(rows: seq<Image>, done: seq<Image>, fate: Key -> Fate): seq<Image> {
    Select(rows, Elements(rows) - Successes(done, fate))
  }

  function Failures(done: seq<Image>, fate: Key -> Fate): seq<Image> { Select(done, FailedOf(done, fate)) }

  function ObjectsGone(done: seq<Image>, fate: Key -> Fate): set<Key> {
    set r | r in done && fate(r.key) != Raised(false) :: r.key
  }

  function WithIds(rows: seq<Image>, ids: set<Id>): set<Image> { set r | r in rows && r.id in ids }

  class Store {
    var rows: seq<Image>
    var bucket: set<Key>

    method DeleteObjects(page: seq<Image>, fate: Key -> Fate) returns (deletable: set<Id>, failed: seq<Image>)
      modifies `bucket
      ensures bucket == old(bucket) - ObjectsGone(page, fate)
      ensures deletable == set r | r in Successes(page, fate) :: r.id
      ensures failed == Failures(page, fate)
    {
      deletable, failed := {}, [];
      for i := 0 to |page|
        invariant bucket == old(bucket) - ObjectsGone(page[..i], fate)
        invariant deletable == set r | r in Successes(page[..i], fate) :: r.id
        invariant failed == Failures(page[..i], fate)
      {
        var r := page[i];
        assert page[..i + 1] == page[..i] + [r];
        FailuresAppend(page[..i], [r], fate);
        SelectOne(r, FailedOf([r], fate));
        assert ObjectsGone(page[..i + 1], fate) == ObjectsGone(page[..i], fate) + ObjectsGone([r], fate);
        assert Successes(page[..i + 1], fate) == Successes(page[..i], fate) + Successes([r], fate);
        if fate(r.key) != Raised(false) { bucket := bucket - {r.key}; }
        if fate(r.key).Deleted? { deletable := deletable + {r.id}; } else { failed := failed + [r]; }
      }
      assert page[..|page|] == page;
    }

    method DeleteRows(ids: set<Id>) returns (count: nat)
      modifies `rows
      ensures rows == Select(old(rows), Elements(old(rows)) - WithIds(old(rows), ids))
      ensures count == |Select(old(rows), WithIds(old(rows), ids))|
    {
      count := |Select(rows, WithIds(rows, ids))|;
      rows := Select(rows, Elements(rows) - WithIds(rows, ids));
    }

    /** One fetched page: objects first, then the rows whose object went. */
    method Batch(page: seq<Image>, fate: Key -> Fate, ghost all: seq<Image>, ghost done: seq<Image>,
                 ghost last: Option<Id>, ghost limit: nat, ghost shown: set<Id>) returns (n: nat, raised: seq<Image>)
      requires ById(all) && forall r :: r in done ==> !Beyond(r, last)
      requires page == Page(all, last, limit, shown) && rows == Remaining(all, done, fate)
      modifies this
      ensures rows == Remaining(all, done + page, fate)
      ensures bucket == old(bucket) - ObjectsGone(page, fate)
      ensures raised == Failures(page, fate) && n + |raised| == |page|
    {
      n := 0;
      var deletable;
      deletable, raised := DeleteObjects(page, fate);
      PageRowsGo(all, done, fate, last, limit, shown, deletable);
      if deletable != {} {
        n := DeleteRows(deletable);
      } else {
        assert |Select(rows, WithIds(rows, {}))| == 0 by { NoneSelected(rows, WithIds(rows, {})); }
      }
    }

    /** Each visited row loses its object; the rows whose delete did not raise, and no others, are gone. */
    method Run(limit: nat, shown: nat -> set<Id>, fate: Key -> Fate) returns (total: nat, failed: seq<Image>)
      requires ById(rows)
      modifies this
      ensures var visited := Visited(old(rows), None, limit, 0, shown);
              && rows == Remaining(old(rows), visited, fate)
              && bucket == old(bucket) - ObjectsGone(visited, fate)
              && failed == Failures(visited, fate)
              && total + |failed| == |visited|
    {
      total, failed := 0, [];
      var last, k := None, 0;
      ghost var done: seq<Image> := [];
      SelectAll(rows, Elements(rows) - Successes([], fate));
      while true
        invariant Sofar(old(rows), done, last, limit, k, shown)
        invariant rows == Remaining(old(rows), done, fate)
        invariant bucket == old(bucket) - ObjectsGone(done, fate)
        invariant failed == Failures(done, fate) && total + |failed| == |done|
        decreases After(old(rows), last)
      {
        var page := Page(rows, last, limit, shown(k));
        PageUnaffected(old(rows), done, fate, last, limit, shown(k));
        SofarNext(old(rows), done, last, limit, k, shown);
        if page == [] { break; }
        DoneAppend(done, page, fate);
        var n, raised := Batch(page, fate, old(rows), done, last, limit, shown(k));
        total, failed := total + n, failed + raised;
        last, k := Some(page[|page| - 1].id), k + 1;
        done := done + page;
        if |page| < limit { break; }
      }
    }
  }

  /** The rows fetched so far are behind the cursor, and the visits go on from the cursor. */
  ghost predicate Sofar(rows: seq<Image>, done: seq<Image>, last: Option<Id>, limit: nat, k: nat,
                        shown: nat -> set<Id>) {
    && Visited(rows, None, limit, 0, shown) == done + Visited(rows, last, limit, k, shown)
    && forall r :: r in done ==> !Beyond(r, last)
  }

  lemma Associative(a: seq<Image>, b: seq<Image>, c: seq<Image>)
    ensures a + (b + c) == a + b + c
  {
  }

  lemma SofarNext(rows: seq<Image>, done: seq<Image>, last: Option<Id>, limit: nat, k: nat, shown: nat -> set<Id>)
    requires ById(rows) && Sofar(rows, done, last, limit, k, shown)
    ensures var page := Page(rows, last, limit, shown(k));
            if page == [] then Visited(rows, None, limit, 0, shown) == done else
              && (|page| < limit ==> Visited(rows, None, limit, 0, shown) == done + page)
              && (|page| == limit ==> Sofar(rows, done + page, Some(page[|page| - 1].id), limit, k + 1, shown))
              && After(rows, Some(page[|page| - 1].id)) < After(rows, last)
  {
    var page := Page(rows, last, limit, shown(k));
    VisitedStep(rows, last, limit, k, shown, page);
    if page != [] {
      PageAdvances(rows, last, limit, shown(k));
      Associative(done, page, Visited(rows, Some(page[|page| - 1].id), limit, k + 1, shown));
      forall r | r in done + page ensures !Beyond(r, Some(page[|page| - 1].id)) {
        PageBehind(rows, last, limit, shown(k), r);
      }
    }
  }

  lemma DoneAppend(done: seq<Image>, page: seq<Image>, fate: Key -> Fate)
    ensures Failures(done + page, fate) == Failures(done, fate) + Failures(page, fate)
    ensures ObjectsGone(done + page, fate) == ObjectsGone(done, fate) + ObjectsGone(page, fate)
  {
    FailuresAppend(done, page, fate);
  }

  lemma FailuresAppend(s: seq<Image>, t: seq<Image>, fate: Key -> Fate)
    ensures Failures(s + t, fate) == Failures(s, fate) + Failures(t, fate)
  {
    var all := FailedOf(s + t, fate);
    SelectAppend(s, t, all);
    SelectAgrees(s, all, FailedOf(s, fate));
    SelectAgrees(t, all, FailedOf(t, fate));
  }

  /** Deleting rows behind the cursor does not change what the next batch fetches. */
  lemma PageUnaffected(rows: seq<Image>, done: seq<Image>, fate: Key -> Fate, last: Option<Id>, limit: nat,
                       ids: set<Id>)
    requires forall r :: r in done ==> !Beyond(r, last)
    ensures Page(Remaining(rows, done, fate), last, limit, ids) == Page(rows, last, limit, ids)
  {
    var kept := Elements(rows) - Successes(done, fate);
    var left := Select(rows, kept);
    forall r ensures r in left <==> r in rows && r in kept { Selected(rows, kept, r); }
    SelectTwice(rows, kept, Shown(left, last, ids));
    assert kept * Shown(left, last, ids) == Shown(rows, last, ids);
  }

  lemma IdsNameSuccesses(rows: seq<Image>, left: seq<Image>, page: seq<Image>, fate: Key -> Fate, ids: set<Id>)
    requires ById(rows) && Elements(page) <= Elements(left) <= Elements(rows)
    requires ids == set r | r in Successes(page, fate) :: r.id
    ensures WithIds(left, ids) == Successes(page, fate)
  {
    forall r | r in page ensures r in left && r in rows { assert r in Elements(page) && r in Elements(left); }
    forall r | r in WithIds(left, ids) ensures r in Successes(page, fate) {
      assert r in Elements(left);
      var r' :| r' in Successes(page, fate) && r'.id == r.id;
      UniqueId(rows, r, r');
    }
  }

  lemma PageIsLeft(rows: seq<Image>, done: seq<Image>, fate: Key -> Fate, last: Option<Id>, limit: nat, shown: set<Id>)
    requires forall r :: r in done ==> !Beyond(r, last)
    ensures Elements(Remaining(rows, done, fate)) == Elements(rows) - Successes(done, fate)
    ensures Elements(Page(rows, last, limit, shown)) <= Elements(Remaining(rows, done, fate))
  {
    var kept := Elements(rows) - Successes(done, fate);
    forall r ensures r in Remaining(rows, done, fate) <==> r in kept { Selected(rows, kept, r); }
    forall r | r in Page(rows, last, limit, shown) ensures r in kept { PageMember(rows, last, limit, shown, r); }
  }

  lemma SuccessesCounted(left: seq<Image>, page: seq<Image>, fate: Key -> Fate)
    requires ById(left) && ById(page) && Elements(page) <= Elements(left)
    ensures |Select(left, Successes(page, fate))| + |Failures(page, fate)| == |page|
  {
    var went := Successes(page, fate);
    SelectedById(left, went);
    SelectedById(page, went);
    forall r ensures r in Select(left, went) <==> r in Select(page, went) {
      Selected(left, went, r);
      Selected(page, went, r);
      if r in went { assert r in Elements(page) && r in Elements(left); }
    }
    SameMembersSameList(Select(left, went), Select(page, went));
    SelectSplits(page, went, FailedOf(page, fate));
  }

  /** Deleting by id removes exactly the page's successes, and the row count says how many there were. */
  lemma PageRowsGo(rows: seq<Image>, done: seq<Image>, fate: Key -> Fate, last: Option<Id>, limit: nat,
                   shown: set<Id>, ids: set<Id>)
    requires ById(rows) && forall r :: r in done ==> !Beyond(r, last)
    requires ids == set r | r in Successes(Page(rows, last, limit, shown), fate) :: r.id
    ensures var page, left := Page(rows, last, limit, shown), Remaining(rows, done, fate);
            && Select(left, Elements(left) - WithIds(left, ids)) == Remaining(rows, done + page, fate)
            && |Select(left, WithIds(left, ids))| + |Failures(page, fate)| == |page|
            && (ids == {} ==> left == Remaining(rows, done + page, fate))
  {
    var page, left := Page(rows, last, limit, shown), Remaining(rows, done, fate);
    PageIsLeft(rows, done, fate, last, limit, shown);
    IdsNameSuccesses(rows, left, page, fate, ids);
    var kept := Elements(rows) - Successes(done, fate);
    SelectTwice(rows, kept, Elements(left) - WithIds(left, ids));
    assert Successes(done + page, fate) == Successes(done, fate) + Successes(page, fate);
    assert kept * (Elements(left) - WithIds(left, ids)) == Elements(rows) - Successes(done + page, fate);
    SelectedById(rows, kept);
    PageById(rows, last, limit, shown);
    SuccessesCounted(left, page, fate);
    if ids == {} { SelectAll(left, Elements(left) - WithIds(left, ids)); }
  }
}
