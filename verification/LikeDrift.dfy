/**
 * When exactly a like counter goes wrong. Nothing is assumed of the run: purges may overlap and
 * apply old sums, and likes may be in flight when their user is selected.
 */
module LikeDrift {
  import opened Likes
  import opened LikeCounts

  /** How far the counter is ahead of the like rows. */
  ghost function Drift(s: State, x: Target): int { Count(s, x) - |Likers(s.rows, x)| }

  // ---- what every run keeps ----------------------------------------------------------------------------

  ghost predicate Tables(s: State) {
    && (forall x :: x in s.counts ==> s.counts[x] >= 0)
    && (forall x :: x in s.deleted ==> x.PostTarget?)
    && (forall l :: l in s.rows ==> l.target in s.counts)
  }

  /** The rows a transaction is about to add are not there, and those it is about to remove are. */
  ghost predicate Honest(s: State, t: Txn) {
    match t
    case Liking(l) => l.target in s.counts
    case Inserted(l) => l.target in s.counts && l !in s.rows
    case Liked(l) => l.target in s.counts && l !in s.rows
    case Removed(l) => l in s.rows
    case Unliked(l) => l in s.rows
    case PostMarked(x) => x.PostTarget?
    case PostEmptied(x, cut) => x.PostTarget? && cut <= s.rows && forall l :: l in cut ==> l.target == x
    case UsersDropped(_, _, cut) => cut <= s.rows
    case _ => true
  }

  ghost predicate RowsApart(t: Txn, u: Txn) { forall l :: LocksLike(t, l) ==> !LocksLike(u, l) }

  ghost predicate Sound(s: State) {
    && Tables(s) && (forall a :: a in s.txns ==> Honest(s, s.txns[a]))
    && (forall a, b :: a in s.txns && b in s.txns && a != b ==> RowsApart(s.txns[a], s.txns[b]))
  }

  lemma SoundGo(s: State, a: TxnId, t: Txn)
    requires Sound(s) && Honest(s, t)
    requires forall b :: b in s.txns && b != a ==> RowsApart(t, s.txns[b]) && RowsApart(s.txns[b], t)
    ensures Sound(Go(s, a, t))
  {
    var s' := Go(s, a, t);
    forall b | b in s'.txns ensures Honest(s', s'.txns[b]) { assert Honest(s, s'.txns[b]); }
  }

  lemma SoundEnd(s: State, a: TxnId)
    requires Sound(s)
    ensures Sound(End(s, a))
  {
    forall b | b in End(s, a).txns ensures Honest(End(s, a), s.txns[b]) { assert Honest(s, s.txns[b]); }
  }

  /** A step that takes no lock on a like row but free ones. */
  lemma SoundWithin(s: State, a: TxnId, t: Txn)
    requires Sound(s) && Honest(s, t)
    requires forall l :: LocksLike(t, l) ==> (a in s.txns && LocksLike(s.txns[a], l)) || LikeFree(s, a, l)
    ensures Sound(Go(s, a, t))
  {
    forall b | b in s.txns && b != a ensures RowsApart(t, s.txns[b]) && RowsApart(s.txns[b], t) {
      if a in s.txns { assert RowsApart(s.txns[a], s.txns[b]); }
    }
    SoundGo(s, a, t);
  }

  lemma SoundLikeSteps(s: State, a: TxnId, e: Step)
    requires Sound(s) && Ready(s, a, e) && (e.Insert? || e.CountUp? || e.Remove? || e.CountDown? || e.Abort?)
    ensures Sound(ActNext(s, a, e))
  {
    var t := s.txns[a];
    assert Honest(s, t);
    match e
    case Insert => if t.like in s.rows { SoundEnd(s, a); } else { SoundWithin(s, a, Inserted(t.like)); }
    case CountUp => SoundWithin(s, a, Liked(t.like));
    case Remove => if t.like in s.rows { SoundWithin(s, a, Removed(t.like)); } else { SoundEnd(s, a); }
    case CountDown => SoundWithin(s, a, Unliked(t.like));
    case Abort => SoundEnd(s, a);
  }

  lemma SoundBegins(s: State, a: TxnId, e: Step)
    requires Sound(s) && Ready(s, a, e) && (e.BeginLike? || e.BeginUnlike? || e.MarkPost? || e.SelectUsers?)
    ensures Sound(ActNext(s, a, e))
  {
    match e
    case BeginLike(l) => SoundWithin(s, a, Liking(l));
    case BeginUnlike(l) => SoundWithin(s, a, Unliking(l));
    case MarkPost(x) => if x !in s.deleted { SoundWithin(s, a, PostMarked(x)); }
    case SelectUsers(us) => SoundWithin(s, a, Selected(us));
  }

  lemma SoundSums(s: State, a: TxnId, e: Step)
    requires Sound(s) && Ready(s, a, e) && (e.ReadPosts? || e.CutPosts? || e.ReadComments? || e.CutComments?)
    ensures Sound(ActNext(s, a, e))
  {
    var t := s.txns[a];
    match e
    case ReadPosts => SoundWithin(s, a, PostsRead(t.users, Shares(s.rows, t.users, Posts(s))));
    case CutPosts => SoundWithin(s, a, PostsCut(t.users, t.next));
    case ReadComments => SoundWithin(s, a, CommentsRead(t.users, t.n, Shares(s.rows, t.users, Comments(s))));
    case CutComments => SoundWithin(s, a, AllCut(t.users, t.n + t.next));
  }

  lemma SoundCuts(s: State, a: TxnId, e: Step)
    requires Sound(s) && Ready(s, a, e) && (e.EmptyPost? || e.DropUsers?)
    ensures Sound(ActNext(s, a, e))
  {
    var t := s.txns[a];
    assert Honest(s, t);
    if e.EmptyPost? {
      SoundWithin(s, a, PostEmptied(t.target, RowsOn(s, t.target)));
    } else {
      SoundWithin(s, a, UsersDropped(t.users, t.n, RowsOf(s, t.users)));
    }
  }

  ghost predicate Commits(t: Txn) { t.Liked? || t.Unliked? || t.PostEmptied? || t.UsersDropped? }

  lemma CommitKeepsTables(s: State, t: Txn)
    requires Tables(s) && Honest(s, t)
    ensures Tables(Committed(s, t))
  {
    match t
    case _ =>
  }

  /** A commit changes only rows that its transaction has locked. */
  lemma CommitKeepsOthers(s: State, t: Txn, u: Txn)
    requires Commits(t) && Honest(s, t) && Honest(s, u) && RowsApart(t, u)
    ensures Honest(Committed(s, t), u)
  {
    var s' := Committed(s, t);
    forall l | (l in s.rows) != (l in s'.rows) ensures LocksLike(t, l) {}
    forall l | LocksLike(u, l) ensures l in s.rows <==> l in s'.rows {}
    assert s'.counts.Keys == s.counts.Keys;
    match u
    case Inserted(l) => assert LocksLike(u, l);
    case Liked(l) => assert LocksLike(u, l);
    case Removed(l) => assert LocksLike(u, l);
    case Unliked(l) => assert LocksLike(u, l);
    case PostEmptied(_, cut) => forall l | l in cut ensures l in s'.rows { assert LocksLike(u, l); }
    case UsersDropped(_, _, cut) => forall l | l in cut ensures l in s'.rows { assert LocksLike(u, l); }
    case _ =>
  }

  lemma SoundCommit(s: State, a: TxnId)
    requires Sound(s) && Ready(s, a, Commit)
    ensures Sound(ActNext(s, a, Commit))
  {
    var t := s.txns[a];
    var s' := Committed(s, t);
    assert Honest(s, t);
    CommitKeepsTables(s, t);
    forall b | b in s.txns && b != a ensures Honest(End(s', a), s.txns[b]) {
      assert Honest(s, s.txns[b]) && RowsApart(t, s.txns[b]);
      CommitKeepsOthers(s, t, s.txns[b]);
    }
  }

  lemma SoundAct(s: State, a: TxnId, e: Step)
    requires Sound(s) && Ready(s, a, e)
    ensures Sound(ActNext(s, a, e))
  {
    if e.BeginLike? || e.BeginUnlike? || e.MarkPost? || e.SelectUsers? {
      SoundBegins(s, a, e);
    } else if e.ReadPosts? || e.CutPosts? || e.ReadComments? || e.CutComments? {
      SoundSums(s, a, e);
    } else if e.EmptyPost? || e.DropUsers? {
      SoundCuts(s, a, e);
    } else if e.Commit? {
      SoundCommit(s, a);
    } else {
      SoundLikeSteps(s, a, e);
    }
  }

  lemma SoundNext(s: State, e: Event)
    requires Sound(s) && Enabled(s, e)
    ensures Sound(Next(s, e))
  {
    if e.Act? {
      SoundAct(s, e.txn, e.step);
    } else {
      var s' := Next(s, e);
      forall a | a in s'.txns ensures Honest(s', s'.txns[a]) { assert Honest(s, s.txns[a]); }
    }
  }

  /** Whatever overlaps: no row is added twice or removed twice, and no counter is negative. */
  lemma {:induction false} EveryRunIsSound(t: Trace)
    requires Legal(t)
    ensures Sound(Last(t))
  {
    if t.Then? {
      EveryRunIsSound(t.prev);
      SoundNext(Last(t.prev), t.event);
    }
  }

  // ---- which commits miss --------------------------------------------------------------------------------

  function Least(a: int, b: int): int { if a <= b then a else b }

  /**
   * Committing `t` takes another number off the counter of `x` than rows of `x` away: an unlike
   * finds the counter at 0, or the sum of a purge, cut off at the counter, is not the number of
   * rows that go.
   */
  ghost predicate Misses(s: State, t: Txn, x: Target) {
    match t
    case Unliked(l) => l.target == x && Count(s, x) == 0
    case UsersDropped(_, n, cut) => Least(Count(s, x), Taken(n, x)) != |Likers(cut, x)|
    case _ => false
  }

  lemma LikersMinus(rows: set<Like>, cut: set<Like>, x: Target)
    requires cut <= rows
    ensures |Likers(rows - cut, x)| == |Likers(rows, x)| - |Likers(cut, x)|
  {
    var all, left, gone := Likers(rows, x), Likers(rows - cut, x), Likers(cut, x);
    forall u ensures u in left <==> u in all && u !in gone {
      if u in all && u !in gone { assert Like(x, u) in rows - cut; }
      if u in left { assert Like(x, u) in rows - cut; }
    }
    assert left == all - gone && gone <= all;
  }

  lemma CommitDrifts(s: State, t: Txn, x: Target)
    requires Tables(s) && Honest(s, t) && x in s.counts && (x.CommentTarget? || x !in Committed(s, t).deleted)
    ensures Drift(Committed(s, t), x) != Drift(s, x) <==> Misses(s, t, x)
  {
    match t
    case Liked(l) => LikersWith(s.rows, l, x);
    case Unliked(l) => LikersWithout(s.rows, l, x);
    case PostEmptied(y, cut) => assert Likers(s.rows - cut, x) == Likers(s.rows, x);
    case UsersDropped(_, _, cut) => LikersMinus(s.rows, cut, x);
    case _ =>
  }

  ghost predicate MissesNow(s: State, e: Event, x: Target)
    requires Enabled(s, e)
  {
    e.Act? && e.step.Commit? && Misses(s, s.txns[e.txn], x)
  }

  lemma OtherEventsDoNotDrift(s: State, e: Event, x: Target)
    requires Enabled(s, e) && x in s.counts && !(e.Act? && e.step.Commit?)
    ensures Drift(Next(s, e), x) == Drift(s, x)
  {
  }

  /** An event changes the drift of a post or comment exactly if it is a commit that misses. */
  lemma DriftsExactlyWhenMissed(t: Trace, e: Event, x: Target)
    requires Legal(t) && Enabled(Last(t), e) && x in Last(t).counts && Counted(Next(Last(t), e), x)
    ensures Drift(Next(Last(t), e), x) != Drift(Last(t), x) <==> MissesNow(Last(t), e, x)
  {
    EveryRunIsSound(t);
    var s := Last(t);
    if e.Act? && e.step.Commit? {
      assert Honest(s, s.txns[e.txn]);
      CommitDrifts(s, s.txns[e.txn], x);
    } else {
      OtherEventsDoNotDrift(s, e, x);
    }
  }

  // ---- whole runs ------------------------------------------------------------------------------------------

  /** In every state of the run in which `x` is counted, its counter is the number of its likes. */
  ghost predicate AlwaysExact(t: Trace, x: Target)
    requires Legal(t)
  {
    (Counted(Last(t), x) ==> Drift(Last(t), x) == 0) && (t.Then? ==> AlwaysExact(t.prev, x))
  }

  /** No commit of the run misses `x` while it is counted. */
  ghost predicate NeverMissed(t: Trace, x: Target)
    requires Legal(t)
  {
    t.Then? ==> NeverMissed(t.prev, x) && (Counted(Last(t), x) ==> !MissesNow(Last(t.prev), t.event, x))
  }

  lemma CountedBefore(s: State, e: Event, x: Target)
    requires Tables(s) && Enabled(s, e) && Counted(Next(s, e), x)
    ensures x in s.counts ==> Counted(s, x)
    ensures x !in s.counts ==> e == CreateTarget(x) && Drift(Next(s, e), x) == 0
  {
    if x !in s.counts { assert Likers(s.rows, x) == {}; }
  }

  lemma {:induction false} ExactWhileNotMissed(t: Trace, x: Target)
    requires Legal(t)
    ensures AlwaysExact(t, x) <==> NeverMissed(t, x)
  {
    if t.Then? {
      ExactWhileNotMissed(t.prev, x);
      EveryRunIsSound(t.prev);
      var s, e := Last(t.prev), t.event;
      if Counted(Last(t), x) {
        CountedBefore(s, e, x);
        if x in s.counts { DriftsExactlyWhenMissed(t.prev, e, x); }
      }
    }
  }
}
