/**
 * Replies under root comments: a preview of the newest three per root comes with the list of roots,
 * and further pages are fetched by id. The replies a viewer can see may change between requests.
 */
module Replies {
  import opened Options
  import opened Pages

  type Id = nat

  datatype Comment = Comment(id: Id, parent: Option<Id>, author: nat, deleted: bool, blinded: bool)

  predicate CanSee(c: Comment, blocked: set<nat>) { !c.deleted && !c.blinded && c.author !in blocked }

  /** The ids of the replies to `root` that the viewer can see, in the order of the table. */
  function Visible(t: seq<Comment>, root: Id, blocked: set<nat>): seq<Id> {
    if t == [] then [] else
      (if t[0].parent == Some(root) && CanSee(t[0], blocked) then [t[0].id] else []) + Visible(t[1..], root, blocked)
  }

  predicate ById(t: seq<Comment>) { forall i, j :: 0 <= i < j < |t| ==> t[i].id < t[j].id }

  /** `a` is listed before `b`. */
  predicate Precedes(a: Id, b: Id, oldest: bool) { if oldest then a < b else b < a }

  predicate Ordered(s: seq<Id>, oldest: bool) {
    forall i, j {:trigger Precedes(s[i], s[j], oldest)} :: 0 <= i < j < |s| ==> Precedes(s[i], s[j], oldest)
  }

  predicate Beyond(x: Id, cursor: Option<Id>, oldest: bool) { cursor.None? || Precedes(cursor.value, x, oldest) }

  function Rest(s: seq<Id>, cursor: Option<Id>, oldest: bool): seq<Id> {
    if s == [] then [] else (if Beyond(s[0], cursor, oldest) then [s[0]] else []) + Rest(s[1..], cursor, oldest)
  }

  /** ORDER BY over ids that ascend. */
  function Listed(s: seq<Id>, oldest: bool): seq<Id> { if oldest then s else Backwards(s) }

  function RepliesPage(visible: seq<Id>, cursor: Option<Id>, size: nat, oldest: bool): Page<Id> {
    SplitPage(Take(Listed(Rest(visible, cursor, oldest), oldest), size + 1), size)
  }

  // ---- lists in order ----------------------------------------------------------------------------------------

  lemma OrderedJoin(s: seq<Id>, t: seq<Id>, oldest: bool)
    requires Ordered(s, oldest) && Ordered(t, oldest) && forall x, y :: x in s && y in t ==> Precedes(x, y, oldest)
    ensures Ordered(s + t, oldest)
  {
    forall i, j | 0 <= i < j < |s + t| ensures Precedes((s + t)[i], (s + t)[j], oldest) {
      if i < |s| <= j { assert s[i] in s && t[j - |s|] in t; }
    }
  }

  lemma TailMembers(s: seq<Id>, oldest: bool)
    requires Ordered(s, oldest) && s != []
    ensures forall x :: x in s[1..] <==> x in s && x != s[0]
    ensures forall x :: x in s[1..] ==> Precedes(s[0], x, oldest)
  {
    assert s == [s[0]] + s[1..];
    assert forall j :: 0 < j < |s| ==> Precedes(s[0], s[j], oldest);
  }

  lemma {:induction false} VisibleMember(t: seq<Comment>, root: Id, blocked: set<nat>, x: Id)
    requires x in Visible(t, root, blocked)
    ensures exists i :: 0 <= i < |t| && t[i].id == x
  {
    if t[0].id != x {
      VisibleMember(t[1..], root, blocked, x);
      var i :| 0 <= i < |t[1..]| && t[1..][i].id == x;
      assert t[i + 1].id == x;
    }
  }

  /** A reply is shown if and only if it is one of the root's, not deleted, not blinded and not by somebody blocked. */
  lemma {:induction false} VisibleAre(t: seq<Comment>, root: Id, blocked: set<nat>, x: Id)
    ensures x in Visible(t, root, blocked) <==>
            exists c :: c in t && c.id == x && c.parent == Some(root) &&
                        !c.deleted && !c.blinded && c.author !in blocked
  {
    if t != [] {
      VisibleAre(t[1..], root, blocked, x);
      assert t == [t[0]] + t[1..];
    }
  }

  lemma {:induction false} VisibleAscends(t: seq<Comment>, root: Id, blocked: set<nat>)
    requires ById(t)
    ensures Ordered(Visible(t, root, blocked), true)
  {
    if t != [] {
      VisibleAscends(t[1..], root, blocked);
      forall x | x in Visible(t[1..], root, blocked) ensures t[0].id < x { VisibleMember(t[1..], root, blocked, x); }
      OrderedJoin([t[0].id], Visible(t[1..], root, blocked), true);
    }
  }

  lemma {:induction false} RestMember(s: seq<Id>, cursor: Option<Id>, oldest: bool, x: Id)
    ensures x in Rest(s, cursor, oldest) <==> x in s && Beyond(x, cursor, oldest)
  {
    if s != [] {
      RestMember(s[1..], cursor, oldest, x);
      assert s == [s[0]] + s[1..];
    }
  }

  lemma {:induction false} RestAscends(s: seq<Id>, cursor: Option<Id>, oldest: bool)
    requires Ordered(s, true)
    ensures Ordered(Rest(s, cursor, oldest), true)
  {
    if s != [] {
      RestAscends(s[1..], cursor, oldest);
      TailMembers(s, true);
      forall x | x in Rest(s[1..], cursor, oldest) ensures s[0] < x { RestMember(s[1..], cursor, oldest, x); }
      OrderedJoin([s[0]], Rest(s[1..], cursor, oldest), true);
    }
  }

  lemma ListedOrder(s: seq<Id>, oldest: bool)
    requires Ordered(s, true)
    ensures Ordered(Listed(s, oldest), oldest)
    ensures forall x :: x in Listed(s, oldest) <==> x in s
  {
    forall i | 0 <= i < |s| ensures Backwards(s)[i] == s[|s| - 1 - i] { BackwardsAt(s, i); }
    forall i, j | 0 <= i < j < |s| ensures Precedes(Backwards(s)[i], Backwards(s)[j], false) {
      assert Precedes(s[|s| - 1 - j], s[|s| - 1 - i], true);
    }
    forall x | x in s ensures x in Backwards(s) {
      var i :| 0 <= i < |s| && s[i] == x;
      assert Backwards(s)[|s| - 1 - i] == x;
    }
  }

  lemma {:induction false} SameMembersSameList(s: seq<Id>, t: seq<Id>, oldest: bool)
    requires Ordered(s, oldest) && Ordered(t, oldest) && forall x :: x in s <==> x in t
    ensures s == t
  {
    assert (s != [] ==> s[0] in s) && (t != [] ==> t[0] in t);
    if s != [] && t != [] {
      TailMembers(s, oldest);
      TailMembers(t, oldest);
      assert s[0] in t && t[0] in s;
      assert s[0] == t[0];
      SameMembersSameList(s[1..], t[1..], oldest);
    }
  }

  // ---- one page ------------------------------------------------------------------------------------------------

  lemma PageInOrder(visible: seq<Id>, cursor: Option<Id>, size: nat, oldest: bool)
    requires Ordered(visible, true)
    ensures var page := RepliesPage(visible, cursor, size, oldest);
            Ordered(page.items, oldest) && forall x :: x in page.items ==> x in visible && Beyond(x, cursor, oldest)
  {
    var rest := Rest(visible, cursor, oldest);
    RestAscends(visible, cursor, oldest);
    ListedOrder(rest, oldest);
    SplitOverfetch(Listed(rest, oldest), size);
    forall x | x in Take(Listed(rest, oldest), size) ensures x in visible && Beyond(x, cursor, oldest) {
      RestMember(visible, cursor, oldest, x);
    }
  }

  /** A visible reply that a page leaves out lies behind a full page that announces more. */
  lemma PageReaches(visible: seq<Id>, cursor: Option<Id>, size: nat, oldest: bool, x: Id)
    requires Ordered(visible, true) && size > 0 && x in visible && Beyond(x, cursor, oldest)
    ensures var page := RepliesPage(visible, cursor, size, oldest);
            x in page.items || (page.more && |page.items| == size && Precedes(page.items[size - 1], x, oldest))
  {
    var rest := Rest(visible, cursor, oldest);
    RestAscends(visible, cursor, oldest);
    RestMember(visible, cursor, oldest, x);
    ListedOrder(rest, oldest);
    SplitOverfetch(Listed(rest, oldest), size);
    var i :| 0 <= i < |Listed(rest, oldest)| && Listed(rest, oldest)[i] == x;
  }

  // ---- walking -------------------------------------------------------------------------------------------------

  function NextCursor(page: Page<Id>, cursor: Option<Id>): Option<Id> {
    if page.items == [] then cursor else Some(page.items[|page.items| - 1])
  }

  /** A client asks until there is no more; request number i sees the replies views[i]. */
  ghost predicate Walk(views: seq<seq<Id>>, cursor: Option<Id>, size: nat, oldest: bool, pages: seq<Page<Id>>)
    decreases |pages|
  {
    && |views| == |pages| > 0 && Ordered(views[0], true) && pages[0] == RepliesPage(views[0], cursor, size, oldest)
    && if pages[0].more then Walk(views[1..], NextCursor(pages[0], cursor), size, oldest, pages[1..]) else |pages| == 1
  }

  function Joined(pages: seq<Page<Id>>): seq<Id> { if pages == [] then [] else pages[0].items + Joined(pages[1..]) }

  /** No reply is listed twice or out of order, and only replies seen by some request are listed. */
  lemma {:induction false} WalkInOrder(views: seq<seq<Id>>, cursor: Option<Id>, size: nat, oldest: bool,
                                       pages: seq<Page<Id>>)
    requires size > 0 && Walk(views, cursor, size, oldest, pages)
    ensures Ordered(Joined(pages), oldest)
    ensures forall x :: x in Joined(pages) ==>
              Beyond(x, cursor, oldest) && exists i :: 0 <= i < |views| && x in views[i]
    decreases |pages|
  {
    PageInOrder(views[0], cursor, size, oldest);
    if pages[0].more {
      var next, rest := NextCursor(pages[0], cursor), Joined(pages[1..]);
      WalkInOrder(views[1..], next, size, oldest, pages[1..]);
      PageThenRest(pages[0].items, rest, cursor, next, oldest);
      forall x | x in rest ensures exists i :: 0 <= i < |views| && x in views[i] {
        var i :| 0 <= i < |views[1..]| && x in views[1..][i];
        assert x in views[i + 1];
      }
    } else {
      assert pages[1..] == [];
    }
  }

  lemma PageThenRest(items: seq<Id>, rest: seq<Id>, cursor: Option<Id>, next: Option<Id>, oldest: bool)
    requires Ordered(items, oldest) && Ordered(rest, oldest)
    requires next == if items == [] then cursor else Some(items[|items| - 1])
    requires forall x :: x in items ==> Beyond(x, cursor, oldest)
    requires forall x :: x in rest ==> Beyond(x, next, oldest)
    ensures Ordered(items + rest, oldest) && forall x :: x in items + rest ==> Beyond(x, cursor, oldest)
  {
    if items != [] {
      var last := items[|items| - 1];
      assert last in items;
      forall x | x in items ensures x == last || Precedes(x, last, oldest) {}
    }
    OrderedJoin(items, rest, oldest);
  }

  /** A reply that stays visible throughout is listed. */
  lemma {:induction false} WalkListsWhatStays(views: seq<seq<Id>>, cursor: Option<Id>, size: nat, oldest: bool,
                                              pages: seq<Page<Id>>, x: Id)
    requires size > 0 && Walk(views, cursor, size, oldest, pages) && Beyond(x, cursor, oldest)
    requires forall i :: 0 <= i < |views| ==> x in views[i]
    ensures x in Joined(pages)
    decreases |pages|
  {
    PageReaches(views[0], cursor, size, oldest, x);
    if x !in pages[0].items {
      forall i | 0 <= i < |views[1..]| ensures x in views[1..][i] { assert x in views[i + 1]; }
      WalkListsWhatStays(views[1..], NextCursor(pages[0], cursor), size, oldest, pages[1..], x);
    }
  }

  /** While nothing changes, the pages are the rest of the list. */
  lemma WalkIsTheRest(visible: seq<Id>, views: seq<seq<Id>>, cursor: Option<Id>, size: nat, oldest: bool,
                      pages: seq<Page<Id>>)
    requires size > 0 && Walk(views, cursor, size, oldest, pages)
    requires forall i :: 0 <= i < |views| ==> views[i] == visible
    ensures Joined(pages) == Listed(Rest(visible, cursor, oldest), oldest)
  {
    var rest := Rest(visible, cursor, oldest);
    RestAscends(visible, cursor, oldest);
    ListedOrder(rest, oldest);
    WalkInOrder(views, cursor, size, oldest, pages);
    forall x ensures x in Joined(pages) <==> x in Listed(rest, oldest) {
      RestMember(visible, cursor, oldest, x);
      if x in rest { WalkListsWhatStays(views, cursor, size, oldest, pages, x); }
    }
    SameMembersSameList(Joined(pages), Listed(rest, oldest), oldest);
  }

  // ---- every walk ends -------------------------------------------------------------------------------------------

  /** What is left of the ids below `top` in the direction of the walk. */
  function Ahead(cursor: Option<Id>, oldest: bool, top: nat): nat {
    match cursor
    case None => top + 1
    case Some(c) => if !oldest then c else if c < top then top - c else 0
  }

  lemma PageIsFull(visible: seq<Id>, cursor: Option<Id>, size: nat, oldest: bool)
    ensures var page := RepliesPage(visible, cursor, size, oldest);
            |page.items| <= size && (page.more ==> |page.items| == size)
  {
    SplitOverfetch(Listed(Rest(visible, cursor, oldest), oldest), size);
  }

  lemma CursorAdvances(visible: seq<Id>, cursor: Option<Id>, size: nat, oldest: bool, top: nat)
    requires Ordered(visible, true) && size > 0 && RepliesPage(visible, cursor, size, oldest).more
    requires forall x :: x in visible ==> x < top
    ensures var next := NextCursor(RepliesPage(visible, cursor, size, oldest), cursor);
            Ahead(next, oldest, top) < Ahead(cursor, oldest, top)
  {
    var page := RepliesPage(visible, cursor, size, oldest);
    PageIsFull(visible, cursor, size, oldest);
    PageInOrder(visible, cursor, size, oldest);
    assert page.items[size - 1] in page.items;
  }

  /** Whatever becomes visible or hidden meanwhile, a walk over ids below some bound ends. */
  lemma {:induction false} WalkEnds(views: nat -> seq<Id>, k: nat, cursor: Option<Id>, size: nat, oldest: bool,
                                    top: nat)
    returns (met: seq<seq<Id>>, pages: seq<Page<Id>>)
    requires size > 0
    requires forall j {:trigger views(j)} :: Ordered(views(j), true) && forall x :: x in views(j) ==> x < top
    ensures Walk(met, cursor, size, oldest, pages) && forall i :: 0 <= i < |met| ==> met[i] == views(k + i)
    decreases Ahead(cursor, oldest, top)
  {
    var page := RepliesPage(views(k), cursor, size, oldest);
    if page.more {
      CursorAdvances(views(k), cursor, size, oldest, top);
      var met', pages' := WalkEnds(views, k + 1, NextCursor(page, cursor), size, oldest, top);
      met, pages := [views(k)] + met', [page] + pages';
      assert met[1..] == met' && pages[1..] == pages';
      forall i | 0 <= i < |met| ensures met[i] == views(k + i) {
        if i > 0 { assert met'[i - 1] == views(k + 1 + (i - 1)); }
      }
    } else {
      met, pages := [views(k)], [page];
    }
  }

  /** The row fetched beyond a full page. */
  lemma RowBehind(visible: seq<Id>, cursor: Option<Id>, size: nat, oldest: bool) returns (y: Id)
    requires Ordered(visible, true) && size > 0 && RepliesPage(visible, cursor, size, oldest).more
    ensures var page := RepliesPage(visible, cursor, size, oldest);
            |page.items| == size && y in visible && Precedes(page.items[size - 1], y, oldest)
  {
    var rest := Rest(visible, cursor, oldest);
    var all := Listed(rest, oldest);
    SplitOverfetch(all, size);
    RestAscends(visible, cursor, oldest);
    ListedOrder(rest, oldest);
    y := all[size];
    assert y in all && Precedes(all[size - 1], all[size], oldest);
    RestMember(visible, cursor, oldest, y);
  }

  /** On a fixed list a page that announces more is followed by one that is not empty. */
  lemma MoreFollows(visible: seq<Id>, cursor: Option<Id>, size: nat, oldest: bool, page: Page<Id>)
    requires Ordered(visible, true) && size > 0 && page == RepliesPage(visible, cursor, size, oldest) && page.more
    ensures RepliesPage(visible, NextCursor(page, cursor), size, oldest).items != []
  {
    var y := RowBehind(visible, cursor, size, oldest);
    PageReaches(visible, Some(page.items[size - 1]), size, oldest, y);
  }

  /** Full pages, and a last one that is empty only if it is the first. */
  ghost predicate Filled(pages: seq<Page<Id>>, size: nat) {
    && pages != [] && |pages[0].items| <= size
    && (|pages| > 1 ==> |pages[0].items| == size && pages[1].items != [] && Filled(pages[1..], size))
  }

  lemma {:induction false} WalkFills(visible: seq<Id>, views: seq<seq<Id>>, cursor: Option<Id>, size: nat, oldest: bool,
                                     pages: seq<Page<Id>>)
    requires size > 0 && Walk(views, cursor, size, oldest, pages)
    requires forall i :: 0 <= i < |views| ==> views[i] == visible
    ensures Filled(pages, size)
    decreases |pages|
  {
    PageIsFull(visible, cursor, size, oldest);
    if pages[0].more {
      MoreFollows(visible, cursor, size, oldest, pages[0]);
      WalkFills(visible, views[1..], NextCursor(pages[0], cursor), size, oldest, pages[1..]);
    }
  }

  lemma {:induction false} CountsPages(pages: seq<Page<Id>>, size: nat)
    requires Filled(pages, size)
    ensures Times(size, |pages| - 1) <= |Joined(pages)| <= Times(size, |pages|)
    ensures pages[0].items != [] ==> Times(size, |pages| - 1) < |Joined(pages)|
  {
    assert |Joined(pages)| == |pages[0].items| + |Joined(pages[1..])|;
    if |pages| > 1 { CountsPages(pages[1..], size); }
  }

  /** On a fixed list: one request per full page and one for the rest. */
  lemma RequestsMade(visible: seq<Id>, views: seq<seq<Id>>, cursor: Option<Id>, size: nat, oldest: bool,
                     pages: seq<Page<Id>>)
    requires size > 0 && Walk(views, cursor, size, oldest, pages)
    requires forall i :: 0 <= i < |views| ==> views[i] == visible
    ensures size * (|pages| - 1) <= |Rest(visible, cursor, oldest)| <= size * |pages|
    ensures |pages| > 1 ==> size * (|pages| - 1) < |Rest(visible, cursor, oldest)|
  {
    WalkIsTheRest(visible, views, cursor, size, oldest, pages);
    WalkFills(visible, views, cursor, size, oldest, pages);
    CountsPages(pages, size);
    PageIsFull(visible, cursor, size, oldest);
    TimesIs(size, |pages| - 1);
    TimesIs(size, |pages|);
  }

  // ---- the preview -----------------------------------------------------------------------------------------------

  datatype Row = Row(id: Id, parent: Id, total: nat)
  datatype Node = Node(root: Id, replies: seq<Id>, count: nat, more: bool)

  function Newest(visible: seq<Id>, limit: nat): seq<Id> { Take(Backwards(visible), limit) }

  /** What the window query may answer: the newest `limit` replies of every root, in any order. */
  ghost predicate Previews(t: seq<Comment>, blocked: set<nat>, roots: seq<Id>, limit: nat, rows: seq<Row>) {
    && (forall i, j :: 0 <= i < j < |rows| ==> rows[i].id != rows[j].id)
    && (forall r :: r in rows <==> r.parent in roots && r.id in Newest(Visible(t, r.parent, blocked), limit) &&
                                   r.total == |Visible(t, r.parent, blocked)|)
  }

  function Ids(rows: seq<Row>, root: Id): seq<Id> {
    if rows == [] then [] else
      var n := |rows| - 1;
      Ids(rows[..n], root) + if rows[n].parent == root then [rows[n].id] else []
  }

  function Total(rows: seq<Row>, root: Id): nat {
    if rows == [] then 0 else
      var n := |rows| - 1;
      if rows[n].parent == root then rows[n].total else Total(rows[..n], root)
  }

  function Insert(x: Id, s: seq<Id>): seq<Id> {
    if s == [] || s[0] <= x then [x] + s else [s[0]] + Insert(x, s[1..])
  }

  /** The sort by id, newest first. */
  function Descending(s: seq<Id>): seq<Id> {
    if s == [] then [] else Insert(s[0], Descending(s[1..]))
  }

  function Tree(rows: seq<Row>, root: Id): Node {
    var ids := Ids(rows, root);
    Node(root, Descending(ids), Total(rows, root), Total(rows, root) > |Descending(ids)|)
  }

  method BuildTree(roots: seq<Id>, rows: seq<Row>) returns (tree: seq<Node>)
    requires forall i, j :: 0 <= i < j < |roots| ==> roots[i] != roots[j]
    ensures |tree| == |roots| && forall i :: 0 <= i < |roots| ==> tree[i] == Tree(rows, roots[i])
  {
    tree := [];
    var byId: map<Id, nat> := map[];
    for i := 0 to |roots|
      invariant |tree| == i && forall j :: 0 <= j < i ==> tree[j] == Node(roots[j], [], 0, false)
      invariant forall x :: x in byId <==> x in roots[..i]
      invariant forall x :: x in byId ==> byId[x] < i && roots[byId[x]] == x
    {
      tree := tree + [Node(roots[i], [], 0, false)];
      byId := byId[roots[i] := i];
    }
    for k := 0 to |rows|
      invariant |tree| == |roots|
      invariant forall j :: 0 <= j < |roots| ==>
                  tree[j] == Node(roots[j], Ids(rows[..k], roots[j]), Total(rows[..k], roots[j]), false)
    {
      var row := rows[k];
      assert rows[..k + 1][..k] == rows[..k];
      if row.parent in byId {
        var p := byId[row.parent];
        tree := tree[p := tree[p].(replies := tree[p].replies + [row.id], count := row.total)];
      }
    }
    assert rows[..|rows|] == rows;
    for i := 0 to |roots|
      invariant |tree| == |roots| && forall j :: 0 <= j < i ==> tree[j] == Tree(rows, roots[j])
      invariant forall j :: i <= j < |roots| ==>
                  tree[j] == Node(roots[j], Ids(rows, roots[j]), Total(rows, roots[j]), false)
    {
      var sorted := Descending(tree[i].replies);
      tree := tree[i := tree[i].(replies := sorted, more := tree[i].count > |sorted|)];
    }
  }

  ghost predicate Distinct(s: seq<Id>) { forall i, j :: 0 <= i < j < |s| ==> s[i] != s[j] }

  lemma {:induction false} InsertMember(x: Id, s: seq<Id>, y: Id)
    ensures y in Insert(x, s) <==> y == x || y in s
  {
    if !(s == [] || s[0] <= x) {
      InsertMember(x, s[1..], y);
      assert s == [s[0]] + s[1..];
    }
  }

  lemma {:induction false} InsertInOrder(x: Id, s: seq<Id>)
    requires Ordered(s, false) && x !in s
    ensures Ordered(Insert(x, s), false)
  {
    if s != [] { TailMembers(s, false); }
    if s == [] || s[0] <= x {
      OrderedJoin([x], s, false);
    } else {
      InsertInOrder(x, s[1..]);
      forall y | y in Insert(x, s[1..]) ensures y < s[0] { InsertMember(x, s[1..], y); }
      OrderedJoin([s[0]], Insert(x, s[1..]), false);
    }
  }

  lemma {:induction false} DescendingMember(s: seq<Id>, x: Id)
    ensures x in Descending(s) <==> x in s
  {
    if s != [] {
      DescendingMember(s[1..], x);
      InsertMember(s[0], Descending(s[1..]), x);
      assert s == [s[0]] + s[1..];
    }
  }

  lemma {:induction false} DescendingInOrder(s: seq<Id>)
    requires Distinct(s)
    ensures Ordered(Descending(s), false)
  {
    if s != [] {
      DescendingInOrder(s[1..]);
      DescendingMember(s[1..], s[0]);
      InsertInOrder(s[0], Descending(s[1..]));
    }
  }

  lemma {:induction false} IdsMember(rows: seq<Row>, root: Id, x: Id)
    ensures x in Ids(rows, root) <==> exists r :: r in rows && r.parent == root && r.id == x
  {
    if rows != [] {
      var n := |rows| - 1;
      IdsMember(rows[..n], root, x);
      assert rows == rows[..n] + [rows[n]];
    }
  }

  lemma {:induction false} IdsDistinct(rows: seq<Row>, root: Id)
    requires forall i, j :: 0 <= i < j < |rows| ==> rows[i].id != rows[j].id
    ensures Distinct(Ids(rows, root))
  {
    if rows != [] {
      var n := |rows| - 1;
      IdsDistinct(rows[..n], root);
      IdsMember(rows[..n], root, rows[n].id);
    }
  }

  lemma {:induction false} TotalOf(rows: seq<Row>, root: Id, n: nat)
    requires forall r :: r in rows && r.parent == root ==> r.total == n
    ensures Total(rows, root) == if exists r :: r in rows && r.parent == root then n else 0
  {
    if rows != [] {
      var k := |rows| - 1;
      assert rows == rows[..k] + [rows[k]];
      TotalOf(rows[..k], root, n);
    }
  }

  lemma NewestInOrder(visible: seq<Id>, limit: nat)
    requires Ordered(visible, true)
    ensures Ordered(Newest(visible, limit), false)
  {
    ListedOrder(visible, false);
  }

  /** However the query orders its rows, each root shows its newest replies, the full count of
      visible replies, and `more` exactly when the preview leaves some out. */
  lemma TreeShowsPreview(t: seq<Comment>, blocked: set<nat>, roots: seq<Id>, limit: nat, rows: seq<Row>, root: Id)
    requires ById(t) && limit > 0 && Previews(t, blocked, roots, limit, rows) && root in roots
    ensures var visible := Visible(t, root, blocked);
            Tree(rows, root) == Node(root, Newest(visible, limit), |visible|, |visible| > limit)
  {
    var visible, ids := Visible(t, root, blocked), Ids(rows, root);
    VisibleAscends(t, root, blocked);
    NewestInOrder(visible, limit);
    IdsDistinct(rows, root);
    DescendingInOrder(ids);
    forall x ensures x in Descending(ids) <==> x in Newest(visible, limit) {
      DescendingMember(ids, x);
      IdsMember(rows, root, x);
      assert x in Newest(visible, limit) ==> Row(x, root, |visible|) in rows;
    }
    SameMembersSameList(Descending(ids), Newest(visible, limit), false);
    TotalOf(rows, root, |visible|);
    if visible != [] {
      assert Newest(visible, limit)[0] in Newest(visible, limit);
      assert Row(Newest(visible, limit)[0], root, |visible|) in rows;
    }
  }

  /** The preview and the pages fetched from its last reply on are all visible replies, newest first, once each. */
  lemma PreviewThenPages(visible: seq<Id>, limit: nat, views: seq<seq<Id>>, size: nat, pages: seq<Page<Id>>)
    requires Ordered(visible, true) && 0 < limit < |visible| && size > 0
    requires Walk(views, Some(Newest(visible, limit)[limit - 1]), size, false, pages)
    requires forall i :: 0 <= i < |views| ==> views[i] == visible
    ensures Newest(visible, limit) + Joined(pages) == Backwards(visible)
  {
    var all, n := Backwards(visible), |visible| - limit;
    var cursor := all[limit - 1];
    WalkIsTheRest(visible, views, Some(cursor), size, false, pages);
    BackwardsAt(visible, limit - 1);
    RestBelow(visible, n);
    BackwardsSplit(visible, limit);
  }

  lemma {:induction false} RestBelow(s: seq<Id>, n: nat)
    requires Ordered(s, true) && n < |s|
    ensures Rest(s, Some(s[n]), false) == s[..n]
  {
    RestAscends(s, Some(s[n]), false);
    forall i | 0 <= i < |s| ensures s[i] < s[n] <==> i < n {
      assert (i < n ==> Precedes(s[i], s[n], true)) && (n < i ==> Precedes(s[n], s[i], true));
    }
    forall x ensures x in Rest(s, Some(s[n]), false) <==> x in s[..n] { RestMember(s, Some(s[n]), false, x); }
    SameMembersSameList(Rest(s, Some(s[n]), false), s[..n], true);
  }
}
