/** Sequences in both directions, and the split of an over-fetched page. */
module Pages {
  function Backwards<T>(s: seq<T>): (r: seq<T>)
    ensures |r| == |s|
  {
    if s == [] then [] else Backwards(s[1..]) + [s[0]]
  }

  function Take<T>(s: seq<T>, n: nat): seq<T> { if |s| <= n then s else s[..n] }

  datatype Page<T> = Page(items: seq<T>, more: bool)

  /** `size` + 1 rows were asked for: the page, and whether there is anything behind it. */
  function SplitPage<T>(rows: seq<T>, size: nat): Page<T> { Page(Take(rows, size), |rows| > size) }

  /** Repeated addition, for counting pages. */
  function Times(size: nat, n: nat): nat { if n == 0 then 0 else size + Times(size, n - 1) }

  lemma {:induction false} TimesIs(size: nat, n: nat)
    ensures Times(size, n) == size * n
  {
    if n > 0 {
      TimesIs(size, n - 1);
      assert size * n == size + size * (n - 1);
    }
  }

  lemma SplitOverfetch<T>(rows: seq<T>, size: nat)
    ensures SplitPage(Take(rows, size + 1), size) == Page(Take(rows, size), |rows| > size)
  {
  }

  lemma {:induction false} BackwardsAt<T>(s: seq<T>, i: nat)
    requires i < |s|
    ensures Backwards(s)[i] == s[|s| - 1 - i]
  {
    if i < |s| - 1 { BackwardsAt(s[1..], i); }
  }

  lemma {:induction false} BackwardsTwice<T>(s: seq<T>)
    ensures Backwards(Backwards(s)) == s
  {
    forall i | 0 <= i < |s| ensures Backwards(Backwards(s))[i] == s[i] {
      BackwardsAt(Backwards(s), i);
      BackwardsAt(s, |s| - 1 - i);
    }
  }

  /** The first `k` of a reversed list are the last `k`, reversed. */
  lemma BackwardsSplit<T>(s: seq<T>, k: nat)
    requires k <= |s|
    ensures Backwards(s)[..k] == Backwards(s[|s| - k..])
    ensures Backwards(s) == Backwards(s[|s| - k..]) + Backwards(s[..|s| - k])
  {
    var n := |s| - k;
    assert s == s[..n] + s[n..];
    BackwardsAppend(s[..n], s[n..]);
  }

  lemma {:induction false} BackwardsAppend<T>(s: seq<T>, t: seq<T>)
    ensures Backwards(s + t) == Backwards(t) + Backwards(s)
  {
    if s == [] {
      assert s + t == t;
    } else {
      BackwardsAppend(s[1..], t);
      assert (s + t)[1..] == s[1..] + t && (s + t)[0] == s[0];
      assert Backwards(t) + Backwards(s[1..]) + [s[0]] == Backwards(t) + (Backwards(s[1..]) + [s[0]]);
    }
  }
}

/**
 * A room's messages page by page. Messages are ordered by creation time and id; a page starts at a
 * cursor message and runs to older or to newer ones, and every response lists the newest first.
 */
module ChatPages {
  import opened Options
  import opened Pages

  type Id = nat

  datatype Message = Message(created: int, id: Id)
  datatype Error = Forbidden | UnknownCursor | CursorRequired
  datatype Result = Ok(page: Page<Message>) | Err(error: Error)

  /** The row comparison (created_at, id) < (created_at, id). */
  predicate Less(a: Message, b: Message) { a.created < b.created || (a.created == b.created && a.id < b.id) }

  /** A room, oldest message first. */
  ghost predicate Room(t: seq<Message>) {
    forall i, j {:trigger Less(t[i], t[j])} :: 0 <= i < j < |t| ==> Less(t[i], t[j]) && t[i].id != t[j].id
  }

  function Lookup(t: seq<Message>, id: Id): Option<Message> {
    if t == [] then None else if t[0].id == id then Some(t[0]) else Lookup(t[1..], id)
  }

  function Older(t: seq<Message>, bound: Message): seq<Message> {
    if t == [] then [] else (if Less(t[0], bound) then [t[0]] else []) + Older(t[1..], bound)
  }

  function Newer(t: seq<Message>, bound: Message): seq<Message> {
    if t == [] then [] else (if Less(bound, t[0]) then [t[0]] else []) + Newer(t[1..], bound)
  }

  function List(t: seq<Message>, member: bool, cursor: Option<Id>, limit: nat, after: bool): Result {
    if !member then Err(Forbidden)
    else if cursor.Some? && Lookup(t, cursor.value).None? then Err(UnknownCursor)
    else if after && cursor.None? then Err(CursorRequired)
    else
      Ok(Fetch(Bounded(t, if cursor.None? then None else Lookup(t, cursor.value), after), limit, after))
  }

  function Bounded(t: seq<Message>, bound: Option<Message>, after: bool): seq<Message> {
    if bound.None? then t else if after then Newer(t, bound.value) else Older(t, bound.value)
  }

  /** One row more than the page is fetched from the end next to the cursor; the newest come first in the answer. */
  function Fetch(rows: seq<Message>, limit: nat, after: bool): Page<Message> {
    var page := SplitPage(Take(if after then rows else Backwards(rows), limit + 1), limit);
    if after then page.(items := Backwards(page.items)) else page
  }

  // ---- one page --------------------------------------------------------------------------------------------

  lemma {:induction false} LookupAt(t: seq<Message>, n: nat)
    requires Room(t) && n < |t|
    ensures Lookup(t, t[n].id) == Some(t[n])
  {
    if n > 0 {
      assert Less(t[0], t[n]);
      LookupAt(t[1..], n - 1);
    }
  }

  lemma {:induction false} LookupFails(t: seq<Message>, id: Id)
    ensures Lookup(t, id).None? <==> forall m :: m in t ==> m.id != id
  {
    if t != [] {
      assert t == [t[0]] + t[1..];
      if t[0].id != id { LookupFails(t[1..], id); }
    }
  }

  /** Which requests are refused: first who is no member, then a cursor that is no message of the room,
      then going forward from nowhere; all others are answered. */
  lemma RefusalsAre(t: seq<Message>, member: bool, cursor: Option<Id>, limit: nat, after: bool)
    ensures var r := List(t, member, cursor, limit, after);
            var stranger := cursor.Some? && forall m :: m in t ==> m.id != cursor.value;
            && (r == Err(Forbidden) <==> !member)
            && (r == Err(UnknownCursor) <==> member && stranger)
            && (r == Err(CursorRequired) <==> member && after && cursor.None?)
            && (r.Ok? <==> member && !stranger && !(after && cursor.None?))
  {
    if cursor.Some? { LookupFails(t, cursor.value); }
  }

  lemma {:induction false} OlderAt(t: seq<Message>, n: nat, bound: Message)
    requires n <= |t|
    requires (forall i :: 0 <= i < n ==> Less(t[i], bound)) && (forall i :: n <= i < |t| ==> !Less(t[i], bound))
    ensures Older(t, bound) == t[..n]
  {
    if t != [] { OlderAt(t[1..], if n == 0 then 0 else n - 1, bound); }
  }

  lemma {:induction false} NewerAt(t: seq<Message>, n: nat, bound: Message)
    requires n <= |t|
    requires (forall i :: 0 <= i < n ==> !Less(bound, t[i])) && (forall i :: n <= i < |t| ==> Less(bound, t[i]))
    ensures Newer(t, bound) == t[n..]
  {
    if t != [] { NewerAt(t[1..], if n == 0 then 0 else n - 1, bound); }
  }

  /** The position a cursor stands for: everything before it is older. */
  ghost predicate At(t: seq<Message>, cursor: Option<Id>, n: nat) {
    n <= |t| && (cursor.None? ==> n == |t|) && (cursor.Some? ==> n < |t| && t[n].id == cursor.value)
  }

  lemma BackBound(t: seq<Message>, cursor: Option<Id>, n: nat, limit: nat)
    requires Room(t) && At(t, cursor, n)
    ensures List(t, true, cursor, limit, false) == Ok(Fetch(t[..n], limit, false))
  {
    if cursor.Some? {
      LookupAt(t, n);
      forall i | n < i < |t| ensures Less(t[n], t[i]) {}
      OlderAt(t, n, t[n]);
    } else {
      assert t[..n] == t;
    }
  }

  lemma ForwardBound(t: seq<Message>, n: nat, limit: nat)
    requires Room(t) && n < |t|
    ensures List(t, true, Some(t[n].id), limit, true) == Ok(Fetch(t[n + 1..], limit, true))
  {
    LookupAt(t, n);
    forall i | 0 <= i < n ensures Less(t[i], t[n]) {}
    NewerAt(t, n + 1, t[n]);
  }

  // ---- walking the room --------------------------------------------------------------------------------------

  /** A client's requests in order, each with the room it meets and the page it gets. */
  datatype Requests =
    | One(room: seq<Message>, page: Page<Message>)
    | Several(room: seq<Message>, page: Page<Message>, rest: Requests)

  /** The next cursor: the oldest message of a page going back, the newest of one going forward. */
  function NextCursor(page: Page<Message>, after: bool): Option<Id> {
    if page.items == [] then None
    else if after then Some(page.items[0].id)
    else Some(page.items[|page.items| - 1].id)
  }

  /** The client asks until there is no more; new messages may arrive between two requests. */
  ghost predicate Walk(r: Requests, cursor: Option<Id>, limit: nat, after: bool) {
    && Room(r.room) && List(r.room, true, cursor, limit, after) == Ok(r.page)
    && match r
       case One(_, page) => !page.more
       case Several(room, page, rest) =>
         page.more && room <= rest.room && Walk(rest, NextCursor(page, after), limit, after)
  }

  /** The answers of a walk back one after the other. */
  function NewestFirst(r: Requests): seq<Message> {
    match r
    case One(_, page) => page.items
    case Several(_, page, rest) => page.items + NewestFirst(rest)
  }

  /** The answers of a walk forward, each turned round. */
  function OldestFirst(r: Requests): seq<Message> {
    match r
    case One(_, page) => Backwards(page.items)
    case Several(_, page, rest) => Backwards(page.items) + OldestFirst(rest)
  }

  function FinalRoom(r: Requests): seq<Message> {
    match r
    case One(room, _) => room
    case Several(_, _, rest) => FinalRoom(rest)
  }

  /** What a page going back takes off the rows, and where the next one starts. */
  lemma FetchBack(rows: seq<Message>, limit: nat)
    requires limit > 0
    ensures var page := Fetch(rows, limit, false);
            && (page.more <==> |rows| > limit)
            && (page.more ==> NextCursor(page, false) == Some(rows[|rows| - limit].id))
            && Backwards(rows) == page.items + if page.more then Backwards(rows[..|rows| - limit]) else []
  {
    SplitOverfetch(Backwards(rows), limit);
    if |rows| > limit {
      BackwardsSplit(rows, limit);
      BackwardsAt(rows, limit - 1);
    }
  }

  lemma FetchForward(rows: seq<Message>, limit: nat)
    requires limit > 0
    ensures var page := Fetch(rows, limit, true);
            && (page.more <==> |rows| > limit)
            && (page.more ==> NextCursor(page, true) == Some(rows[limit - 1].id))
            && Backwards(page.items) == Take(rows, limit)
  {
    SplitOverfetch(rows, limit);
    BackwardsTwice(Take(rows, limit));
    if |rows| > limit { BackwardsAt(Take(rows, limit), 0); }
  }

  lemma PageBack(t: seq<Message>, n: nat, limit: nat, page: Page<Message>)
    requires limit > 0 && n <= |t| && page == Fetch(t[..n], limit, false)
    ensures page.more <==> n > limit
    ensures page.more ==> NextCursor(page, false) == Some(t[n - limit].id)
    ensures Backwards(t[..n]) == page.items + if page.more then Backwards(t[..n - limit]) else []
  {
    var rows := t[..n];
    FetchBack(rows, limit);
    if n > limit {
      assert |rows| == n && rows[n - limit] == t[n - limit];
      PrefixOfPrefix(t, n, n - limit);
    }
  }

  lemma PrefixOfPrefix(t: seq<Message>, n: nat, k: nat)
    requires k <= n <= |t|
    ensures t[..n][..k] == t[..k]
  {
  }

  lemma StepBack(t: seq<Message>, cursor: Option<Id>, n: nat, limit: nat, page: Page<Message>)
    requires limit > 0 && Room(t) && At(t, cursor, n) && List(t, true, cursor, limit, false) == Ok(page)
    ensures page.more <==> n > limit
    ensures page.more ==> NextCursor(page, false) == Some(t[n - limit].id)
    ensures Backwards(t[..n]) == page.items + if page.more then Backwards(t[..n - limit]) else []
  {
    BackBound(t, cursor, n, limit);
    PageBack(t, n, limit, page);
  }

  lemma StepForward(t: seq<Message>, n: nat, limit: nat, page: Page<Message>)
    requires limit > 0 && Room(t) && n < |t| && List(t, true, Some(t[n].id), limit, true) == Ok(page)
    ensures page.more <==> |t| - n - 1 > limit
    ensures page.more ==> NextCursor(page, true) == Some(t[n + limit].id)
    ensures Backwards(page.items) == if page.more then t[n + 1..n + limit + 1] else t[n + 1..]
  {
    ForwardBound(t, n, limit);
    FetchForward(t[n + 1..], limit);
  }

  /** A walk back by positions: each page takes `limit` off the first `n` messages. */
  ghost predicate Back(r: Requests, n: nat, limit: nat) {
    && n <= |r.room| && r.page.more == (n > limit) == r.Several?
    && Backwards(r.room[..n]) == r.page.items + (if n > limit then Backwards(r.room[..n - limit]) else [])
    && (r.Several? ==> r.room <= r.rest.room && Back(r.rest, n - limit, limit))
  }

  lemma {:induction false} WalkIsBack(r: Requests, cursor: Option<Id>, n: nat, limit: nat)
    requires limit > 0 && At(r.room, cursor, n) && Walk(r, cursor, limit, false)
    ensures Back(r, n, limit)
  {
    StepBack(r.room, cursor, n, limit, r.page);
    if r.Several? { WalkIsBack(r.rest, NextCursor(r.page, false), n - limit, limit); }
  }

  lemma {:induction false} BackLists(r: Requests, n: nat, limit: nat)
    requires Back(r, n, limit)
    ensures NewestFirst(r) == Backwards(r.room[..n])
  {
    if r.Several? {
      BackLists(r.rest, n - limit, limit);
      assert r.rest.room[..n - limit] == r.room[..n - limit];
    }
  }

  /** Going back lists every older message once, newest first, whatever arrives meanwhile. */
  lemma WalkBack(r: Requests, cursor: Option<Id>, n: nat, limit: nat)
    requires limit > 0 && At(r.room, cursor, n) && Walk(r, cursor, limit, false)
    ensures NewestFirst(r) == Backwards(r.room[..n])
  {
    WalkIsBack(r, cursor, n, limit);
    BackLists(r, n, limit);
  }

  /** A page forward by positions: the next `limit` messages after position `n`. */
  ghost predicate ForwardHere(r: Requests, n: nat, limit: nat) {
    && n < |r.room| && r.page.more == (|r.room| - n - 1 > limit) == r.Several?
    && Backwards(r.page.items) == if r.Several? then r.room[n + 1..n + limit + 1] else r.room[n + 1..]
  }

  ghost predicate Forward(r: Requests, n: nat, limit: nat) {
    ForwardHere(r, n, limit) && (r.Several? ==> r.room <= r.rest.room && Forward(r.rest, n + limit, limit))
  }

  lemma ForwardStep(r: Requests, n: nat, limit: nat)
    requires limit > 0 && n < |r.room| && Walk(r, Some(r.room[n].id), limit, true)
    ensures ForwardHere(r, n, limit)
    ensures r.Several? ==> r.room <= r.rest.room && Walk(r.rest, Some(r.rest.room[n + limit].id), limit, true)
  {
    StepForward(r.room, n, limit, r.page);
    if r.Several? { assert r.rest.room[n + limit] == r.room[n + limit]; }
  }

  lemma {:induction false} WalkIsForward(r: Requests, n: nat, limit: nat)
    requires limit > 0 && n < |r.room| && Walk(r, Some(r.room[n].id), limit, true)
    ensures Forward(r, n, limit)
  {
    ForwardStep(r, n, limit);
    if r.Several? { WalkIsForward(r.rest, n + limit, limit); }
  }

  lemma {:induction false} ForwardLists(r: Requests, n: nat, limit: nat)
    requires Forward(r, n, limit)
    ensures r.room <= FinalRoom(r) && OldestFirst(r) == FinalRoom(r)[n + 1..]
  {
    if r.Several? {
      ForwardLists(r.rest, n + limit, limit);
      JoinSlices(r.room, FinalRoom(r), n + 1, n + limit + 1);
    }
  }

  /** Going forward from a message leaves no gap: the pages are all newer messages, those that
      arrive meanwhile included, oldest first and once each. */
  lemma WalkForward(r: Requests, n: nat, limit: nat)
    requires limit > 0 && n < |r.room| && Walk(r, Some(r.room[n].id), limit, true)
    ensures n < |FinalRoom(r)| && OldestFirst(r) == FinalRoom(r)[n + 1..]
  {
    WalkIsForward(r, n, limit);
    ForwardLists(r, n, limit);
  }

  lemma JoinSlices(s: seq<Message>, t: seq<Message>, i: nat, j: nat)
    requires i <= j <= |s| && s <= t
    ensures s[i..j] + t[j..] == t[i..]
  {
  }

  // ---- every walk ends ---------------------------------------------------------------------------------------

  ghost predicate Extends(later: seq<Message>, earlier: seq<Message>) { earlier <= later }

  /** The room as each request meets it: messages only ever arrive. */
  ghost predicate Timeline(rooms: nat -> seq<Message>) {
    && (forall k {:trigger Room(rooms(k))} :: Room(rooms(k)))
    && (forall j, k {:trigger Extends(rooms(k), rooms(j))} :: j <= k ==> Extends(rooms(k), rooms(j)))
  }

  /** The requests from number `k` on meet the rooms of the timeline. */
  ghost predicate Meets(r: Requests, rooms: nat -> seq<Message>, k: nat) {
    r.room == rooms(k) && (r.Several? ==> Meets(r.rest, rooms, k + 1))
  }

  /** A request back is answered, and its next cursor stands where it says in every later room. */
  lemma AsksBack(t: seq<Message>, later: seq<Message>, cursor: Option<Id>, n: nat, limit: nat)
    returns (page: Page<Message>)
    requires limit > 0 && Room(t) && At(t, cursor, n) && Extends(later, t)
    ensures List(t, true, cursor, limit, false) == Ok(page) && (page.more <==> n > limit)
    ensures page.more ==> At(later, NextCursor(page, false), n - limit)
  {
    BackBound(t, cursor, n, limit);
    page := Fetch(t[..n], limit, false);
    StepBack(t, cursor, n, limit, page);
  }

  lemma AsksForward(t: seq<Message>, later: seq<Message>, n: nat, limit: nat) returns (page: Page<Message>)
    requires limit > 0 && Room(t) && n < |t| && Extends(later, t)
    ensures List(t, true, Some(t[n].id), limit, true) == Ok(page)
    ensures page.more ==> n + limit < |later| && NextCursor(page, true) == Some(later[n + limit].id)
  {
    ForwardBound(t, n, limit);
    page := Fetch(t[n + 1..], limit, true);
    StepForward(t, n, limit, page);
  }

  /** Going back ends, whatever arrives meanwhile. */
  lemma {:induction false} WalkBackEnds(rooms: nat -> seq<Message>, k: nat, cursor: Option<Id>, n: nat, limit: nat)
    returns (r: Requests)
    requires limit > 0 && Timeline(rooms) && At(rooms(k), cursor, n)
    ensures Meets(r, rooms, k) && Walk(r, cursor, limit, false)
    decreases n
  {
    assert Room(rooms(k)) && Extends(rooms(k + 1), rooms(k));
    var page := AsksBack(rooms(k), rooms(k + 1), cursor, n, limit);
    if page.more {
      var rest := WalkBackEnds(rooms, k + 1, NextCursor(page, false), n - limit, limit);
      r := Several(rooms(k), page, rest);
    } else {
      r := One(rooms(k), page);
    }
  }

  /** Going forward ends if the room stays below some size. */
  lemma {:induction false} WalkForwardEnds(rooms: nat -> seq<Message>, k: nat, n: nat, limit: nat, most: nat)
    returns (r: Requests)
    requires limit > 0 && Timeline(rooms) && n < |rooms(k)| && forall j :: |rooms(j)| <= most
    ensures Meets(r, rooms, k) && Walk(r, Some(rooms(k)[n].id), limit, true)
    decreases most - n
  {
    assert Room(rooms(k)) && Extends(rooms(k + 1), rooms(k));
    var page := AsksForward(rooms(k), rooms(k + 1), n, limit);
    if page.more {
      var rest := WalkForwardEnds(rooms, k + 1, n + limit, limit, most);
      r := Several(rooms(k), page, rest);
    } else {
      r := One(rooms(k), page);
    }
  }

  /** The answers determine the requests, so the walk that ends is the only one. */
  lemma {:induction false} WalkIsUnique(rooms: nat -> seq<Message>, k: nat, cursor: Option<Id>, limit: nat, after: bool,
                                        r: Requests, r': Requests)
    requires Meets(r, rooms, k) && Walk(r, cursor, limit, after)
    requires Meets(r', rooms, k) && Walk(r', cursor, limit, after)
    ensures r == r'
    decreases r
  {
    if r.Several? { WalkIsUnique(rooms, k + 1, NextCursor(r.page, after), limit, after, r.rest, r'.rest); }
  }

  function Length(r: Requests): (n: nat)
    ensures n > 0
  {
    match r case One(_, _) => 1 case Several(_, _, rest) => 1 + Length(rest)
  }

  lemma {:induction false} CountsBack(r: Requests, n: nat, limit: nat)
    requires Back(r, n, limit)
    ensures Times(limit, Length(r) - 1) <= n <= Times(limit, Length(r))
    ensures r.Several? ==> Times(limit, Length(r) - 1) < n
  {
    if r.Several? { CountsBack(r.rest, n - limit, limit); }
  }

  lemma {:induction false} CountsForward(r: Requests, n: nat, limit: nat)
    requires Forward(r, n, limit)
    ensures n < |FinalRoom(r)| && Times(limit, Length(r) - 1) <= |FinalRoom(r)| - n - 1 <= Times(limit, Length(r))
  {
    if r.Several? { CountsForward(r.rest, n + limit, limit); }
  }

  /** One request per full page and one for the rest. */
  lemma BackRequests(r: Requests, cursor: Option<Id>, n: nat, limit: nat)
    requires limit > 0 && At(r.room, cursor, n) && Walk(r, cursor, limit, false)
    ensures limit * (Length(r) - 1) <= n <= limit * Length(r) && (Length(r) > 1 ==> limit * (Length(r) - 1) < n)
  {
    WalkIsBack(r, cursor, n, limit);
    CountsBack(r, n, limit);
    TimesIs(limit, Length(r) - 1);
    TimesIs(limit, Length(r));
  }

  lemma ForwardRequests(r: Requests, n: nat, limit: nat)
    requires limit > 0 && n < |r.room| && Walk(r, Some(r.room[n].id), limit, true)
    ensures n < |FinalRoom(r)| && limit * (Length(r) - 1) <= |FinalRoom(r)| - n - 1 <= limit * Length(r)
  {
    WalkIsForward(r, n, limit);
    CountsForward(r, n, limit);
    TimesIs(limit, Length(r) - 1);
    TimesIs(limit, Length(r));
  }
}
