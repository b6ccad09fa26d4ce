/**
 * Denormalised like counters. Likes, unlikes, post deletions and purges of withdrawn users run as
 * transactions of several statements that interleave freely; they are ordered by the locks that
 * an UPDATE takes on a counter row and that an INSERT or DELETE takes on a like row. One event is
 * one statement or one commit; an open transaction's writes are in its `Txn`. The purge's counter
 * updates take two events, because such an UPDATE sums up the like rows before it waits for the
 * counters and does not sum them up again afterwards.
 */
module Likes {
  type UserId = nat
  type TxnId = nat

  const CHUNK := 200
  const RETENTION_SECONDS := 30 * 24 * 3600

  datatype Target = PostTarget(post: nat) | CommentTarget(comment: nat)
  datatype Like = Like(target: Target, user: UserId)

  datatype Txn =
    | Liking(like: Like)
    | Inserted(like: Like)
    | Liked(like: Like)
    | Unliking(like: Like)
    | Removed(like: Like)
    | Unliked(like: Like)
    | PostMarked(target: Target)
    | PostEmptied(target: Target, cut: set<Like>)
    | Selected(users: set<UserId>)
    | PostsRead(users: set<UserId>, next: map<Target, nat>)
    | PostsCut(users: set<UserId>, n: map<Target, nat>)
    | CommentsRead(users: set<UserId>, n: map<Target, nat>, next: map<Target, nat>)
    | AllCut(users: set<UserId>, n: map<Target, nat>)
    | UsersDropped(users: set<UserId>, n: map<Target, nat>, cut: set<Like>)

  /** The clock and the committed tables. `deleted` are the soft-deleted posts; `withdrawn` says when a user left. */
  datatype State = State(
    now: int, counts: map<Target, int>, deleted: set<Target>, rows: set<Like>,
    users: set<UserId>, withdrawn: map<UserId, int>, txns: map<TxnId, Txn>)

  datatype Step =
    | BeginLike(like: Like)
    | Insert
    | CountUp
    | BeginUnlike(like: Like)
    | Remove
    | CountDown
    | MarkPost(target: Target)
    | EmptyPost
    | SelectUsers(users: set<UserId>)
    | ReadPosts
    | CutPosts
    | ReadComments
    | CutComments
    | DropUsers
    | Commit
    | Abort

  datatype Event =
    | Tick(seconds: nat)
    | CreateTarget(target: Target)
    | SignUp(user: UserId)
    | Withdraw(user: UserId)
    | Act(txn: TxnId, step: Step)

  // ---- locks ---------------------------------------------------------------------------------------

  predicate LocksCounter(t: Txn, x: Target) {
    match t
    case Liked(l) => l.target == x
    case Unliked(l) => l.target == x
    case PostMarked(p) => p == x
    case PostEmptied(p, _) => p == x
    case PostsCut(_, n) => x in n
    case CommentsRead(_, n, _) => x in n
    case AllCut(_, n) => x in n
    case UsersDropped(_, n, _) => x in n
    case _ => false
  }

  predicate LocksLike(t: Txn, l: Like) {
    match t
    case Inserted(m) => m == l
    case Liked(m) => m == l
    case Removed(m) => m == l
    case Unliked(m) => m == l
    case PostEmptied(_, cut) => l in cut
    case UsersDropped(_, _, cut) => l in cut
    case _ => false
  }

  predicate CounterFree(s: State, a: TxnId, x: Target) {
    forall b :: b in s.txns && b != a ==> !LocksCounter(s.txns[b], x)
  }

  predicate LikeFree(s: State, a: TxnId, l: Like) {
    forall b :: b in s.txns && b != a ==> !LocksLike(s.txns[b], l)
  }

  /** The user whose like or unlike is in flight. */
  predicate ActsFor(t: Txn, u: UserId) {
    (t.Liking? || t.Inserted? || t.Liked? || t.Unliking? || t.Removed? || t.Unliked?) && t.like.user == u
  }

  predicate Purges(t: Txn, u: UserId) {
    (t.Selected? || t.PostsRead? || t.PostsCut? || t.CommentsRead? || t.AllCut? || t.UsersDropped?) && u in t.users
  }

  // ---- the statements --------------------------------------------------------------------------------

  function Likers(rows: set<Like>, x: Target): set<UserId> { set l | l in rows && l.target == x :: l.user }

  /** How many likes of `x` belong to `users`: the aggregate of the purge's counter update. */
  function Share(rows: set<Like>, x: Target, users: set<UserId>): nat { |Likers(rows, x) * users| }

  function Shares(rows: set<Like>, users: set<UserId>, xs: set<Target>): (n: map<Target, nat>)
    ensures forall x :: x in n <==> x in xs && Share(rows, x, users) > 0
    ensures forall x :: x in n ==> n[x] == Share(rows, x, users)
  {
    map x | x in xs && Share(rows, x, users) > 0 :: Share(rows, x, users)
  }

  function Posts(s: State): set<Target> { set x | x in s.counts && x.PostTarget? }

  function Comments(s: State): set<Target> { set x | x in s.counts && x.CommentTarget? }

  function RowsOf(s: State, users: set<UserId>): set<Like> { set l | l in s.rows && l.user in users }

  function RowsOn(s: State, x: Target): set<Like> { set l | l in s.rows && l.target == x }

  function Max0(n: int): nat { if n < 0 then 0 else n }

  function Minus(counts: map<Target, int>, n: map<Target, nat>): map<Target, int> {
    map x | x in counts :: if x in n then Max0(counts[x] - n[x]) else counts[x]
  }

  /** Withdrawn for longer than the retention period. */
  predicate Purgeable(s: State, u: UserId) { u in s.withdrawn && s.withdrawn[u] < s.now - RETENTION_SECONDS }

  predicate Ready(s: State, a: TxnId, e: Step) {
    match e
    case BeginLike(l) => a !in s.txns && l.target in s.counts && l.user in s.users && l.user !in s.withdrawn
    case BeginUnlike(l) => a !in s.txns && l.target in s.counts && l.user in s.users && l.user !in s.withdrawn
    case MarkPost(x) => a !in s.txns && x.PostTarget? && x in s.counts && CounterFree(s, a, x)
    case SelectUsers(us) => a !in s.txns && us <= s.users && |us| <= CHUNK && forall u :: u in us ==> Purgeable(s, u)
    case _ => a in s.txns && InTxn(s, a, s.txns[a], e)
  }

  predicate InTxn(s: State, a: TxnId, t: Txn, e: Step) {
    match e
    case Insert => t.Liking? && LikeFree(s, a, t.like)
    case CountUp => t.Inserted? && CounterFree(s, a, t.like.target)
    case Remove => t.Unliking? && LikeFree(s, a, t.like)
    case CountDown => t.Removed? && CounterFree(s, a, t.like.target)
    case EmptyPost => t.PostMarked? && forall l :: l in RowsOn(s, t.target) ==> LikeFree(s, a, l)
    case ReadPosts => t.Selected?
    case CutPosts => t.PostsRead? && forall x :: x in t.next ==> CounterFree(s, a, x)
    case ReadComments => t.PostsCut?
    case CutComments => t.CommentsRead? && forall x :: x in t.next ==> CounterFree(s, a, x)
    case DropUsers => t.AllCut? && forall l :: l in RowsOf(s, t.users) ==> LikeFree(s, a, l)
    case Commit => t.Liked? || t.Unliked? || t.PostEmptied? || t.UsersDropped?
    case Abort => true
    case _ => false
  }

  predicate Enabled(s: State, e: Event) {
    match e
    case Tick(_) => true
    case CreateTarget(x) => x !in s.counts
    case SignUp(u) => u !in s.users && u !in s.withdrawn
    case Withdraw(_) => true
    case Act(a, step) => Ready(s, a, step)
  }

  function Go(s: State, a: TxnId, t: Txn): State { s.(txns := s.txns[a := t]) }

  function End(s: State, a: TxnId): State { s.(txns := s.txns - {a}) }

  function SetTo(counts: map<Target, int>, x: Target, value: int): map<Target, int> {
    if x in counts then counts[x := value] else counts
  }

  function Count(s: State, x: Target): int { if x in s.counts then s.counts[x] else 0 }

  function Committed(s: State, t: Txn): State {
    match t
    case Liked(l) => s.(rows := s.rows + {l}, counts := SetTo(s.counts, l.target, Count(s, l.target) + 1))
    case Unliked(l) => s.(rows := s.rows - {l}, counts := SetTo(s.counts, l.target, Max0(Count(s, l.target) - 1)))
    case PostEmptied(x, cut) => s.(deleted := s.deleted + {x}, rows := s.rows - cut)
    case UsersDropped(us, n, cut) => s.(counts := Minus(s.counts, n), rows := s.rows - cut, users := s.users - us)
    case _ => s
  }

  function ActNext(s: State, a: TxnId, e: Step): State
    requires Ready(s, a, e)
  {
    match e
    case BeginLike(l) => Go(s, a, Liking(l))
    case Insert =>
      // ON CONFLICT DO NOTHING: an existing like leaves the counter alone.
      if s.txns[a].like in s.rows then End(s, a) else Go(s, a, Inserted(s.txns[a].like))
    case CountUp => Go(s, a, Liked(s.txns[a].like))
    case BeginUnlike(l) => Go(s, a, Unliking(l))
    case Remove => if s.txns[a].like in s.rows then Go(s, a, Removed(s.txns[a].like)) else End(s, a)
    case CountDown => Go(s, a, Unliked(s.txns[a].like))
    case MarkPost(x) => if x in s.deleted then s else Go(s, a, PostMarked(x))
    case EmptyPost => Go(s, a, PostEmptied(s.txns[a].target, RowsOn(s, s.txns[a].target)))
    case SelectUsers(us) => Go(s, a, Selected(us))
    case ReadPosts => Go(s, a, PostsRead(s.txns[a].users, Shares(s.rows, s.txns[a].users, Posts(s))))
    case CutPosts => Go(s, a, PostsCut(s.txns[a].users, s.txns[a].next))
    case ReadComments =>
      Go(s, a, CommentsRead(s.txns[a].users, s.txns[a].n, Shares(s.rows, s.txns[a].users, Comments(s))))
    case CutComments => Go(s, a, AllCut(s.txns[a].users, s.txns[a].n + s.txns[a].next))
    case DropUsers => Go(s, a, UsersDropped(s.txns[a].users, s.txns[a].n, RowsOf(s, s.txns[a].users)))
    case Commit => End(Committed(s, s.txns[a]), a)
    case Abort => End(s, a)
  }

  function Next(s: State, e: Event): State
    requires Enabled(s, e)
  {
    match e
    case Tick(seconds) => s.(now := s.now + seconds)
    case CreateTarget(x) => s.(counts := s.counts[x := 0])
    case SignUp(u) => s.(users := s.users + {u})
    case Withdraw(u) => if u in s.users && u !in s.withdrawn then s.(withdrawn := s.withdrawn[u := s.now]) else s
    case Act(a, step) => ActNext(s, a, step)
  }

  datatype Trace = Start | Then(prev: Trace, event: Event)

  ghost predicate Legal(t: Trace)
    decreases t, 0
  {
    t.Start? || (Legal(t.prev) && Enabled(Last(t.prev), t.event))
  }

  ghost function Last(t: Trace): State
    requires Legal(t)
    decreases t, 1
  {
    match t
    case Start => State(0, map[], {}, {}, {}, map[], map[])
    case Then(prev, e) => Next(Last(prev), e)
  }
}

/** Every counter of a post not deleted, and of every comment, is the number of its like rows. */
module LikeCounts {
  import opened Likes

  ghost predicate Matches(s: State, x: Target) { Count(s, x) == |Likers(s.rows, x)| }

  ghost predicate TablesOk(s: State) {
    && (forall x :: x in s.counts && x !in s.deleted ==> Matches(s, x))
    && (forall x :: x in s.deleted ==> x.PostTarget?)
    && (forall l :: l in s.rows ==> l.target in s.counts)
  }

  ghost function Taken(n: map<Target, nat>, x: Target): nat { if x in n then n[x] else 0 }

  ghost predicate CutOk(s: State, users: set<UserId>, n: map<Target, nat>, comments: bool) {
    && n.Keys <= s.counts.Keys && (!comments ==> forall x :: x in n ==> x.PostTarget?)
    && (forall x :: x in s.counts && x !in s.deleted && (comments || x.PostTarget?) ==>
          Taken(n, x) == Share(s.rows, x, users))
  }

  ghost predicate TxnOk(s: State, t: Txn) {
    match t
    case Liking(l) => l.target in s.counts
    case Inserted(l) => l.target in s.counts && l !in s.rows
    case Liked(l) => l.target in s.counts && l !in s.rows
    case Unliking(l) => true
    case Removed(l) => l in s.rows
    case Unliked(l) => l in s.rows
    case PostMarked(x) => x.PostTarget?
    case PostEmptied(x, cut) => x.PostTarget? && forall l :: l in cut ==> l.target == x
    case Selected(_) => true
    case PostsRead(_, next) => next.Keys <= s.counts.Keys && forall x :: x in next ==> x.PostTarget?
    case PostsCut(us, n) => CutOk(s, us, n, false)
    case CommentsRead(us, n, next) =>
      CutOk(s, us, n, false) && next.Keys <= s.counts.Keys && forall x :: x in next ==> x.CommentTarget?
    case AllCut(us, n) => CutOk(s, us, n, true)
    case UsersDropped(us, n, cut) => CutOk(s, us, n, true) && cut == RowsOf(s, us)
  }

  ghost predicate Apart(t: Txn, u: Txn) {
    && (forall x :: LocksCounter(t, x) ==> !LocksCounter(u, x))
    && (forall l :: LocksLike(t, l) ==> !LocksLike(u, l))
    && (forall v :: Purges(t, v) ==> !ActsFor(u, v))
    && (forall v :: Purges(u, v) ==> !ActsFor(t, v))
  }

  ghost predicate TxnsOk(s: State) {
    && (forall a :: a in s.txns ==> TxnOk(s, s.txns[a]))
    && (forall a, b :: a in s.txns && b in s.txns && a != b ==> Apart(s.txns[a], s.txns[b]))
  }

  ghost predicate Inv(s: State) {
    TablesOk(s) && TxnsOk(s) && forall a, u :: a in s.txns && Purges(s.txns[a], u) ==> u in s.withdrawn
  }

  // ---- moving one transaction ------------------------------------------------------------------------

  lemma ApartSymmetric(t: Txn, u: Txn)
    requires Apart(t, u)
    ensures Apart(u, t)
  {
  }

  lemma TxnReadsTables(s: State, s': State, t: Txn)
    requires TxnOk(s, t) && s'.counts == s.counts && s'.deleted == s.deleted && s'.rows == s.rows
    ensures TxnOk(s', t)
  {
    match t
    case _ =>
  }

  ghost predicate PurgesWithdrawn(s: State, t: Txn) { forall u :: Purges(t, u) ==> u in s.withdrawn }

  lemma Moved(s: State, a: TxnId, t: Txn)
    requires TxnsOk(s) && TxnOk(s, t)
    requires forall b :: b in s.txns && b != a ==> Apart(t, s.txns[b])
    ensures TxnsOk(Go(s, a, t))
  {
    var s' := Go(s, a, t);
    forall b | b in s'.txns ensures TxnOk(s', s'.txns[b]) { TxnReadsTables(s, s', s'.txns[b]); }
    forall b, c | b in s'.txns && c in s'.txns && b != c ensures Apart(s'.txns[b], s'.txns[c]) {
      if c == a { ApartSymmetric(t, s.txns[b]); }
    }
  }

  lemma KeepGo(s: State, a: TxnId, t: Txn)
    requires Inv(s) && TxnOk(s, t) && PurgesWithdrawn(s, t)
    requires forall b :: b in s.txns && b != a ==> Apart(t, s.txns[b])
    ensures Inv(Go(s, a, t))
  {
    SameTables(s, Go(s, a, t));
    Moved(s, a, t);
    var s' := Go(s, a, t);
    forall b, u | b in s'.txns && Purges(s'.txns[b], u) ensures u in s'.withdrawn { if b == a { assert Purges(t, u); } }
  }

  lemma SameTables(s: State, s': State)
    requires TablesOk(s) && s'.counts == s.counts && s'.deleted == s.deleted && s'.rows == s.rows
    ensures TablesOk(s')
  {
    forall x | x in s'.counts && x !in s'.deleted ensures Matches(s', x) { assert Matches(s, x); }
  }

  lemma Ended(s: State, a: TxnId)
    requires TxnsOk(s)
    ensures TxnsOk(End(s, a))
  {
    forall b | b in End(s, a).txns ensures TxnOk(End(s, a), s.txns[b]) { TxnReadsTables(s, End(s, a), s.txns[b]); }
  }

  lemma KeepEnd(s: State, a: TxnId)
    requires Inv(s)
    ensures Inv(End(s, a))
  {
    SameTables(s, End(s, a));
    Ended(s, a);
  }

  // ---- the statements of one transaction -------------------------------------------------------------

  /** The new phase holds no lock the others hold, given what the old phase held. */
  lemma StillApart(s: State, a: TxnId, t: Txn, u: Txn)
    requires a in s.txns && Apart(s.txns[a], u)
    requires forall x :: LocksCounter(t, x) ==> LocksCounter(s.txns[a], x) || !LocksCounter(u, x)
    requires forall l :: LocksLike(t, l) ==> LocksLike(s.txns[a], l) || !LocksLike(u, l)
    requires forall v :: (ActsFor(t, v) ==> ActsFor(s.txns[a], v)) && (Purges(t, v) ==> Purges(s.txns[a], v))
    ensures Apart(t, u)
  {
  }

  lemma KeepWithin(s: State, a: TxnId, t: Txn)
    requires Inv(s) && a in s.txns && TxnOk(s, t)
    requires forall x :: LocksCounter(t, x) && !LocksCounter(s.txns[a], x) ==> CounterFree(s, a, x)
    requires forall l :: LocksLike(t, l) && !LocksLike(s.txns[a], l) ==> LikeFree(s, a, l)
    requires forall v :: (ActsFor(t, v) ==> ActsFor(s.txns[a], v)) && (Purges(t, v) ==> Purges(s.txns[a], v))
    ensures Inv(Go(s, a, t))
  {
    forall b | b in s.txns && b != a ensures Apart(t, s.txns[b]) { StillApart(s, a, t, s.txns[b]); }
    assert PurgesWithdrawn(s, t);
    KeepGo(s, a, t);
  }

  lemma KeepLikeSteps(s: State, a: TxnId, e: Step)
    requires Inv(s) && Ready(s, a, e) && (e.Insert? || e.CountUp? || e.Remove? || e.CountDown? || e.Abort?)
    ensures Inv(ActNext(s, a, e))
  {
    var t := s.txns[a];
    assert TxnOk(s, t);
    match e
    case Insert => if t.like in s.rows { KeepEnd(s, a); } else { KeepWithin(s, a, Inserted(t.like)); }
    case CountUp => KeepWithin(s, a, Liked(t.like));
    case Remove => if t.like in s.rows { KeepWithin(s, a, Removed(t.like)); } else { KeepEnd(s, a); }
    case CountDown => KeepWithin(s, a, Unliked(t.like));
    case Abort => KeepEnd(s, a);
  }

  lemma KeepEmptyPost(s: State, a: TxnId)
    requires Inv(s) && Ready(s, a, EmptyPost)
    ensures Inv(ActNext(s, a, EmptyPost))
  {
    assert TxnOk(s, s.txns[a]);
    KeepWithin(s, a, PostEmptied(s.txns[a].target, RowsOn(s, s.txns[a].target)));
  }

  lemma KeepReadPosts(s: State, a: TxnId)
    requires Inv(s) && Ready(s, a, ReadPosts)
    ensures Inv(ActNext(s, a, ReadPosts))
  {
    KeepWithin(s, a, PostsRead(s.txns[a].users, Shares(s.rows, s.txns[a].users, Posts(s))));
  }

  lemma KeepReadComments(s: State, a: TxnId)
    requires Inv(s) && Ready(s, a, ReadComments)
    ensures Inv(ActNext(s, a, ReadComments))
  {
    var t := s.txns[a];
    assert TxnOk(s, t);
    KeepWithin(s, a, CommentsRead(t.users, t.n, Shares(s.rows, t.users, Comments(s))));
  }

  /** The sums are those of the rows as they are now, on targets that are not deleted. */
  ghost predicate Fresh(s: State, users: set<UserId>, sums: map<Target, nat>, comments: bool) {
    forall x :: x in s.counts && x !in s.deleted && x.CommentTarget? == comments ==>
      Taken(sums, x) == Share(s.rows, x, users)
  }

  /** A counter update applies sums that are still right. */
  ghost predicate PromptStep(s: State, a: TxnId, e: Step)
    requires Ready(s, a, e)
  {
    && (e.CutPosts? ==> Fresh(s, s.txns[a].users, s.txns[a].next, false))
    && (e.CutComments? ==> Fresh(s, s.txns[a].users, s.txns[a].next, true))
  }

  lemma KeepCutPosts(s: State, a: TxnId)
    requires Inv(s) && Ready(s, a, CutPosts) && PromptStep(s, a, CutPosts)
    ensures Inv(ActNext(s, a, CutPosts))
  {
    var t := s.txns[a];
    assert TxnOk(s, t);
    assert CutOk(s, t.users, t.next, false);
    KeepWithin(s, a, PostsCut(t.users, t.next));
  }

  lemma KeepCutComments(s: State, a: TxnId)
    requires Inv(s) && Ready(s, a, CutComments) && PromptStep(s, a, CutComments)
    ensures Inv(ActNext(s, a, CutComments))
  {
    var t := s.txns[a];
    assert TxnOk(s, t);
    assert CutOk(s, t.users, t.n + t.next, true);
    KeepWithin(s, a, AllCut(t.users, t.n + t.next));
  }

  lemma KeepDropUsers(s: State, a: TxnId)
    requires Inv(s) && Ready(s, a, DropUsers)
    ensures Inv(ActNext(s, a, DropUsers))
  {
    assert TxnOk(s, s.txns[a]);
    KeepWithin(s, a, UsersDropped(s.txns[a].users, s.txns[a].n, RowsOf(s, s.txns[a].users)));
  }

  /** No user is selected for the purge while a like or unlike of theirs is in flight. */
  ghost predicate Quiet(s: State, e: Step) {
    e.SelectUsers? ==> forall b, u :: b in s.txns && u in e.users ==> !ActsFor(s.txns[b], u)
  }

  lemma KeepBegins(s: State, a: TxnId, e: Step)
    requires Inv(s) && Ready(s, a, e) && (e.BeginLike? || e.BeginUnlike? || e.MarkPost? || e.SelectUsers?)
    requires Quiet(s, e)
    ensures Inv(ActNext(s, a, e))
  {
    match e
    case BeginLike(l) => KeepGo(s, a, Liking(l));
    case BeginUnlike(l) => KeepGo(s, a, Unliking(l));
    case MarkPost(x) => if x !in s.deleted { KeepGo(s, a, PostMarked(x)); }
    case SelectUsers(us) => KeepGo(s, a, Selected(us));
  }

  // ---- commits ---------------------------------------------------------------------------------------

  /** Rows of users outside `us` and rows of deleted posts do not enter the purge's sums. */
  lemma SameShare(rows: set<Like>, rows': set<Like>, x: Target, us: set<UserId>)
    requires forall l: Like :: l.target == x && l.user in us ==> (l in rows <==> l in rows')
    ensures Share(rows', x, us) == Share(rows, x, us)
  {
    assert Likers(rows', x) * us == Likers(rows, x) * us by {
      forall u | u in us ensures u in Likers(rows', x) <==> u in Likers(rows, x) {
        assert Like(x, u) in rows <==> Like(x, u) in rows';
      }
    }
  }

  lemma SameCut(s: State, s': State, us: set<UserId>, n: map<Target, nat>, comments: bool)
    requires CutOk(s, us, n, comments) && s'.counts.Keys == s.counts.Keys && s.deleted <= s'.deleted
    requires forall l: Like :: l.user in us && l.target !in s'.deleted && (comments || l.target.PostTarget?) ==>
               (l in s.rows <==> l in s'.rows)
    ensures CutOk(s', us, n, comments)
  {
    forall x | x in s'.counts && x !in s'.deleted && (comments || x.PostTarget?)
      ensures Taken(n, x) == Share(s'.rows, x, us)
    {
      SameShare(s.rows, s'.rows, x, us);
    }
  }

  /** The purge has already summed up the likes of the target. */
  ghost predicate Summed(t: Txn, x: Target) {
    ((t.PostsCut? || t.CommentsRead?) && x.PostTarget?) || t.AllCut? || t.UsersDropped?
  }

  /** What a commit must leave to another transaction `u`. */
  ghost predicate Calm(s: State, s': State, u: Txn) {
    && s'.counts.Keys == s.counts.Keys && s.deleted <= s'.deleted
    && (forall l :: LocksLike(u, l) ==> (l in s.rows <==> l in s'.rows))
    && (forall l: Like :: Purges(u, l.user) && Summed(u, l.target) && l.target !in s'.deleted ==>
          (l in s.rows <==> l in s'.rows))
    && (u.UsersDropped? ==> RowsOf(s', u.users) == RowsOf(s, u.users))
  }

  lemma Undisturbed(s: State, s': State, u: Txn)
    requires TxnOk(s, u) && Calm(s, s', u)
    ensures TxnOk(s', u)
  {
    match u
    case Inserted(l) => assert LocksLike(u, l);
    case Liked(l) => assert LocksLike(u, l);
    case Removed(l) => assert LocksLike(u, l);
    case Unliked(l) => assert LocksLike(u, l);
    case PostsCut(us, n) =>
      forall l: Like | l.user in us ensures Purges(u, l.user) {}
      SameCut(s, s', us, n, false);
    case CommentsRead(us, n, _) =>
      forall l: Like | l.user in us ensures Purges(u, l.user) {}
      SameCut(s, s', us, n, false);
    case AllCut(us, n) =>
      forall l: Like | l.user in us ensures Purges(u, l.user) {}
      SameCut(s, s', us, n, true);
    case UsersDropped(us, n, _) =>
      forall l: Like | l.user in us ensures Purges(u, l.user) {}
      SameCut(s, s', us, n, true);
    case _ =>
  }

  lemma LikeCalm(s: State, t: Txn, u: Txn)
    requires (t.Liked? || t.Unliked?) && Apart(t, u)
    ensures Calm(s, Committed(s, t), u)
  {
    assert ActsFor(t, t.like.user) && LocksLike(t, t.like);
    assert !Purges(u, t.like.user) && !LocksLike(u, t.like);
  }

  lemma EmptiedCalm(s: State, t: Txn, u: Txn)
    requires t.PostEmptied? && TxnOk(s, t) && TxnOk(s, u) && Apart(t, u)
    ensures Calm(s, Committed(s, t), u)
  {
    forall l | l in t.cut ensures !LocksLike(u, l) { assert LocksLike(t, l); }
    if u.UsersDropped? { forall l | l in RowsOf(s, u.users) ensures l !in t.cut { assert LocksLike(u, l); } }
  }

  /** Two purges that have both summed up a like would both hold its counter. */
  lemma DroppedCalm(s: State, t: Txn, u: Txn)
    requires t.UsersDropped? && TablesOk(s) && TxnOk(s, t) && TxnOk(s, u) && Apart(t, u)
    ensures Calm(s, Committed(s, t), u)
  {
    forall l | l in t.cut ensures !LocksLike(u, l) { assert LocksLike(t, l); }
    forall l: Like | l in t.cut && Purges(u, l.user) && l.target !in s.deleted ensures !Summed(u, l.target) {
      Contributes(s, l, t.users);
      if Summed(u, l.target) {
        Contributes(s, l, u.users);
        assert LocksCounter(t, l.target) && LocksCounter(u, l.target);
      }
    }
    if u.UsersDropped? { forall l | l in RowsOf(s, u.users) ensures l !in t.cut { assert LocksLike(u, l); } }
  }

  lemma Contributes(s: State, l: Like, us: set<UserId>)
    requires TablesOk(s) && l in s.rows && l.user in us
    ensures l.target in s.counts && Share(s.rows, l.target, us) > 0
  {
    assert l.user in Likers(s.rows, l.target) * us;
  }

  lemma CommitOther(s: State, t: Txn, u: Txn)
    requires TablesOk(s) && (t.Liked? || t.Unliked? || t.PostEmptied? || t.UsersDropped?)
    requires TxnOk(s, t) && TxnOk(s, u) && Apart(t, u)
    ensures TxnOk(Committed(s, t), u)
  {
    if t.PostEmptied? {
      EmptiedCalm(s, t, u);
    } else if t.UsersDropped? {
      DroppedCalm(s, t, u);
    } else {
      LikeCalm(s, t, u);
    }
    Undisturbed(s, Committed(s, t), u);
  }

  lemma CommitTxns(s: State, a: TxnId)
    requires TablesOk(s) && TxnsOk(s) && Ready(s, a, Commit)
    ensures TxnsOk(End(Committed(s, s.txns[a]), a))
  {
    var t := s.txns[a];
    var s' := Committed(s, t);
    forall b | b in s'.txns && b != a ensures TxnOk(End(s', a), s'.txns[b]) {
      assert TxnOk(s, t) && TxnOk(s, s.txns[b]) && Apart(t, s.txns[b]);
      CommitOther(s, t, s.txns[b]);
      TxnReadsTables(s', End(s', a), s.txns[b]);
    }
  }

  lemma LikersWith(rows: set<Like>, l: Like, x: Target)
    requires l !in rows
    ensures |Likers(rows + {l}, x)| == |Likers(rows, x)| + if l.target == x then 1 else 0
  {
    if l.target == x {
      assert l.user !in Likers(rows, x);
      assert Likers(rows + {l}, x) == Likers(rows, x) + {l.user};
    } else {
      assert Likers(rows + {l}, x) == Likers(rows, x);
    }
  }

  lemma LikersWithout(rows: set<Like>, l: Like, x: Target)
    requires l in rows
    ensures |Likers(rows - {l}, x)| == |Likers(rows, x)| - if l.target == x then 1 else 0
  {
    LikersWith(rows - {l}, l, x);
    assert rows - {l} + {l} == rows;
  }

  lemma LikersWithoutUsers(s: State, us: set<UserId>, x: Target)
    ensures |Likers(s.rows - RowsOf(s, us), x)| == |Likers(s.rows, x)| - Share(s.rows, x, us)
  {
    var all := Likers(s.rows, x);
    var left := Likers(s.rows - RowsOf(s, us), x);
    assert left == all - us by {
      forall u ensures u in left <==> u in all - us {
        if u in all - us { assert Like(x, u) in s.rows - RowsOf(s, us); }
      }
    }
    assert all == (all - us) + (all * us);
  }

  /** In both directions the clamp at zero is idle, because the counter covers what is taken off. */
  lemma ClampIsIdle(s: State, t: Txn, x: Target)
    requires TablesOk(s) && TxnOk(s, t) && x in s.counts && x !in s.deleted
    ensures t.Unliked? && t.like.target == x ==> Count(s, x) >= 1
    ensures t.UsersDropped? ==> Count(s, x) >= Taken(t.n, x)
  {
    assert Matches(s, x);
    if t.Unliked? && t.like.target == x { LikersWithout(s.rows, t.like, x); }
    if t.UsersDropped? { LikersWithoutUsers(s, t.users, x); }
  }

  lemma CommitMatches(s: State, t: Txn, x: Target)
    requires TablesOk(s) && TxnOk(s, t) && x in s.counts && x !in Committed(s, t).deleted
    ensures Matches(Committed(s, t), x)
  {
    assert Matches(s, x);
    ClampIsIdle(s, t, x);
    match t
    case Liked(l) => LikersWith(s.rows, l, x);
    case Unliked(l) => LikersWithout(s.rows, l, x);
    case PostEmptied(y, cut) => assert Likers(s.rows - cut, x) == Likers(s.rows, x);
    case UsersDropped(us, n, cut) => LikersWithoutUsers(s, us, x);
    case _ =>
  }

  lemma CommitTables(s: State, t: Txn)
    requires TablesOk(s) && TxnOk(s, t)
    ensures TablesOk(Committed(s, t))
  {
    var s' := Committed(s, t);
    forall x | x in s'.counts && x !in s'.deleted ensures Matches(s', x) { CommitMatches(s, t, x); }
  }

  lemma KeepCommit(s: State, a: TxnId)
    requires Inv(s) && Ready(s, a, Commit)
    ensures Inv(ActNext(s, a, Commit))
  {
    var s' := Committed(s, s.txns[a]);
    assert TxnOk(s, s.txns[a]);
    CommitTables(s, s.txns[a]);
    SameTables(s', End(s', a));
    CommitTxns(s, a);
  }

  // ---- every run -------------------------------------------------------------------------------------

  lemma CreatedTxn(s: State, x: Target, t: Txn)
    requires TablesOk(s) && TxnOk(s, t) && x !in s.counts
    ensures TxnOk(s.(counts := s.counts[x := 0]), t)
  {
    assert forall us :: Share(s.rows, x, us) == 0 by {
      forall us ensures Share(s.rows, x, us) == 0 { assert Likers(s.rows, x) * us == {}; }
    }
    match t
    case _ =>
  }

  lemma KeepCreate(s: State, x: Target)
    requires Inv(s) && x !in s.counts
    ensures Inv(s.(counts := s.counts[x := 0]))
  {
    var s' := s.(counts := s.counts[x := 0]);
    assert Likers(s.rows, x) == {};
    forall y | y in s'.counts && y !in s'.deleted ensures Matches(s', y) { if y != x { assert Matches(s, y); } }
    forall a | a in s.txns ensures TxnOk(s', s.txns[a]) { CreatedTxn(s, x, s.txns[a]); }
  }

  lemma KeepUsers(s: State, s': State)
    requires Inv(s) && s' == s.(now := s'.now, users := s'.users, withdrawn := s'.withdrawn)
    requires s.withdrawn.Keys <= s'.withdrawn.Keys
    ensures Inv(s')
  {
    SameTables(s, s');
    forall a | a in s.txns ensures TxnOk(s', s.txns[a]) { TxnReadsTables(s, s', s.txns[a]); }
  }

  lemma KeepPurgeSteps(s: State, a: TxnId, e: Step)
    requires Inv(s) && Ready(s, a, e) && PromptStep(s, a, e)
    requires e.ReadPosts? || e.CutPosts? || e.ReadComments? || e.CutComments? || e.DropUsers?
    ensures Inv(ActNext(s, a, e))
  {
    match e
    case ReadPosts => KeepReadPosts(s, a);
    case CutPosts => KeepCutPosts(s, a);
    case ReadComments => KeepReadComments(s, a);
    case CutComments => KeepCutComments(s, a);
    case DropUsers => KeepDropUsers(s, a);
  }

  lemma KeepAct(s: State, a: TxnId, e: Step)
    requires Inv(s) && Ready(s, a, e) && Quiet(s, e) && PromptStep(s, a, e)
    ensures Inv(ActNext(s, a, e))
  {
    if e.BeginLike? || e.BeginUnlike? || e.MarkPost? || e.SelectUsers? {
      KeepBegins(s, a, e);
    } else if e.ReadPosts? || e.CutPosts? || e.ReadComments? || e.CutComments? || e.DropUsers? {
      KeepPurgeSteps(s, a, e);
    } else if e.EmptyPost? {
      KeepEmptyPost(s, a);
    } else if e.Commit? {
      KeepCommit(s, a);
    } else {
      KeepLikeSteps(s, a, e);
    }
  }

  lemma KeepEvent(s: State, e: Event)
    requires Inv(s) && Enabled(s, e) && (e.Act? ==> Quiet(s, e.step) && PromptStep(s, e.txn, e.step))
    ensures Inv(Next(s, e))
  {
    match e
    case CreateTarget(x) => KeepCreate(s, x);
    case SignUp(u) => KeepUsers(s, s.(users := s.users + {u}));
    case Tick(_) => KeepUsers(s, Next(s, e));
    case Withdraw(_) => KeepUsers(s, Next(s, e));
    case Act(a, step) => KeepAct(s, a, step);
  }

  /** Every selection of the run was quiet. */
  ghost predicate Settled(t: Trace)
    requires Legal(t)
  {
    t.Then? ==> Settled(t.prev) && (t.event.Act? ==> Quiet(Last(t.prev), t.event.step))
  }

  /** Every counter update of a purge applied sums that were still right. */
  ghost predicate Prompt(t: Trace)
    requires Legal(t)
  {
    t.Then? ==> Prompt(t.prev) && (t.event.Act? ==> PromptStep(Last(t.prev), t.event.txn, t.event.step))
  }

  lemma {:induction false} EveryRun(t: Trace)
    requires Legal(t) && Settled(t) && Prompt(t)
    ensures Inv(Last(t))
  {
    if t.Then? {
      EveryRun(t.prev);
      KeepEvent(Last(t.prev), t.event);
    }
  }

  // ---- what the retention period gives ---------------------------------------------------------------

  ghost predicate Acting(t: Txn) { exists u :: ActsFor(t, u) }

  ghost predicate Begins(e: Event, a: TxnId) { e.Act? && e.txn == a && (e.step.BeginLike? || e.step.BeginUnlike?) }

  /** When the latest like or unlike under the id `a` began. */
  ghost function BeganAt(t: Trace, a: TxnId): int
    requires Legal(t)
  {
    if t.Start? then 0 else if Begins(t.event, a) then Last(t.prev).now else BeganAt(t.prev, a)
  }

  /** No like or unlike is open for longer than the retention period. */
  ghost predicate BriefNow(t: Trace)
    requires Legal(t)
  {
    var s := Last(t);
    forall a :: a in s.txns && Acting(s.txns[a]) ==> s.now - BeganAt(t, a) <= RETENTION_SECONDS
  }

  ghost predicate Brief(t: Trace)
    requires Legal(t)
  {
    BriefNow(t) && (t.Then? ==> Brief(t.prev))
  }

  /** A like or unlike of a withdrawn user began no later than the withdrawal. */
  ghost predicate BeganInTime(t: Trace, a: TxnId)
    requires Legal(t)
  {
    var s := Last(t);
    && BeganAt(t, a) <= s.now
    && forall u :: a in s.txns && ActsFor(s.txns[a], u) && u in s.withdrawn ==> BeganAt(t, a) <= s.withdrawn[u]
  }

  lemma ActsOnOwn(s: State, a: TxnId, e: Step, u: UserId)
    requires Ready(s, a, e) && !e.BeginLike? && !e.BeginUnlike? && a in ActNext(s, a, e).txns
    requires ActsFor(ActNext(s, a, e).txns[a], u)
    ensures a in s.txns && ActsFor(s.txns[a], u)
  {
  }

  lemma OthersStand(s: State, e: Event, a: TxnId)
    requires Enabled(s, e) && (e.Act? ==> e.txn != a)
    ensures a in Next(s, e).txns <==> a in s.txns
    ensures a in s.txns ==> Next(s, e).txns[a] == s.txns[a]
  {
  }

  /** A step that does not begin a like keeps the user for whom its transaction acts. */
  lemma ActsOn(s: State, e: Event, a: TxnId, u: UserId)
    requires Enabled(s, e) && !Begins(e, a) && a in Next(s, e).txns && ActsFor(Next(s, e).txns[a], u)
    ensures a in s.txns && ActsFor(s.txns[a], u)
  {
    if e.Act? && e.txn == a { ActsOnOwn(s, a, e.step, u); } else { OthersStand(s, e, a); }
  }

  lemma WithdrawnAt(s: State, e: Event, u: UserId)
    requires Enabled(s, e) && u in Next(s, e).withdrawn
    ensures if u in s.withdrawn then Next(s, e).withdrawn[u] == s.withdrawn[u] else Next(s, e).withdrawn[u] == s.now
    ensures Next(s, e).now >= s.now
  {
  }

  lemma ClockRuns(s: State, e: Event)
    requires Enabled(s, e)
    ensures Next(s, e).now >= s.now
  {
  }

  lemma {:induction false} LikesBeganInTime(t: Trace, a: TxnId)
    requires Legal(t)
    ensures BeganInTime(t, a)
  {
    if t.Then? {
      LikesBeganInTime(t.prev, a);
      var s, s' := Last(t.prev), Last(t);
      ClockRuns(s, t.event);
      forall u | a in s'.txns && ActsFor(s'.txns[a], u) && u in s'.withdrawn ensures BeganAt(t, a) <= s'.withdrawn[u] {
        WithdrawnAt(s, t.event, u);
        if !Begins(t.event, a) { ActsOn(s, t.event, a, u); }
      }
    }
  }

  lemma RetentionIsQuiet(t: Trace, a: TxnId, e: Step)
    requires Legal(t) && BriefNow(t) && Ready(Last(t), a, e)
    ensures Quiet(Last(t), e)
  {
    var s := Last(t);
    if e.SelectUsers? {
      forall b, u | b in s.txns && u in e.users ensures !ActsFor(s.txns[b], u) {
        LikesBeganInTime(t, b);
        if ActsFor(s.txns[b], u) {
          assert Purgeable(s, u) && Acting(s.txns[b]);
          assert false;
        }
      }
    }
  }

  /** The retention period keeps purges away from open likes, unless one of them stays open as long. */
  lemma {:induction false} RetentionSettles(t: Trace)
    requires Legal(t) && Brief(t)
    ensures Settled(t)
  {
    if t.Then? {
      RetentionSettles(t.prev);
      if t.event.Act? { RetentionIsQuiet(t.prev, t.event.txn, t.event.step); }
    }
  }

  // ---- the counters ------------------------------------------------------------------------------------

  /** A comment, or a post that is not deleted. */
  ghost predicate Counted(s: State, x: Target) { x in s.counts && (x.CommentTarget? || x !in s.deleted) }

  /** In every committed state the counter of a live post and of any comment is the number of its likes. */
  lemma CountersAreExact(t: Trace, x: Target)
    requires Legal(t) && Brief(t) && Prompt(t) && Counted(Last(t), x)
    ensures Last(t).counts[x] == |Likers(Last(t).rows, x)|
  {
    RetentionSettles(t);
    EveryRun(t);
    assert Matches(Last(t), x);
  }

  /** GREATEST(..., 0) never changes a result: each decrement finds at least what it takes off. */
  lemma ClampNeverActs(t: Trace, a: TxnId, x: Target)
    requires Legal(t) && Brief(t) && Prompt(t) && Ready(Last(t), a, Commit) && Counted(Last(t), x)
    ensures var u := Last(t).txns[a];
            && (u.Unliked? && u.like.target == x ==> Last(t).counts[x] - 1 >= 0)
            && (u.UsersDropped? && x in u.n ==> Last(t).counts[x] - u.n[x] >= 0)
  {
    RetentionSettles(t);
    EveryRun(t);
    assert TxnOk(Last(t), Last(t).txns[a]);
    ClampIsIdle(Last(t), Last(t).txns[a], x);
  }
}
