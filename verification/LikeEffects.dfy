/** What a like, an unlike and the deletion of a post leave behind, whatever others do meanwhile. */
module LikeEffects {
  import opened Likes
  import opened LikeCounts
  import opened LikeDrift
  import opened PurgeOverlap

  /** Transaction `a` has been open in every state from `begin` to `t`. */
  ghost predicate Open(t: Trace, begin: Trace, a: TxnId)
    requires Legal(t)
  {
    a in Last(t).txns && (t == begin || (t.Then? && Open(t.prev, begin, a)))
  }

  /** The step ends transaction `a`, and not by rolling it back. */
  ghost predicate Ends(s: State, a: TxnId, e: Step) { Ready(s, a, e) && !e.Abort? && a !in ActNext(s, a, e).txns }

  // ---- likes -----------------------------------------------------------------------------------------------

  ghost predicate IsLike(t: Txn, l: Like) { t == Liking(l) || t == Inserted(l) || t == Liked(l) }

  ghost predicate IsUnlike(t: Txn, l: Like) { t == Unliking(l) || t == Removed(l) || t == Unliked(l) }

  lemma OwnStep(s: State, a: TxnId, e: Step, l: Like)
    requires Ready(s, a, e) && a in s.txns && a in ActNext(s, a, e).txns
    ensures IsLike(s.txns[a], l) ==> IsLike(ActNext(s, a, e).txns[a], l)
    ensures IsUnlike(s.txns[a], l) ==> IsUnlike(ActNext(s, a, e).txns[a], l)
  {
  }

  lemma {:induction false} StaysLike(t: Trace, begin: Trace, a: TxnId, l: Like)
    requires Legal(t) && Legal(begin) && begin.Then? && Open(t, begin, a)
    ensures begin.event == Act(a, BeginLike(l)) ==> IsLike(Last(t).txns[a], l)
    ensures begin.event == Act(a, BeginUnlike(l)) ==> IsUnlike(Last(t).txns[a], l)
  {
    if t != begin {
      StaysLike(t.prev, begin, a, l);
      if t.event.Act? && t.event.txn == a {
        OwnStep(Last(t.prev), a, t.event.step, l);
      } else {
        OthersStand(Last(t.prev), t.event, a);
      }
    }
  }

  ghost predicate OthersCounted(s: State, s': State, x: Target) {
    forall y :: y != x ==> Count(s', y) == Count(s, y)
  }

  /** The row is there, and its target counted up exactly if it was missing. */
  ghost predicate LeftLiked(s: State, s': State, l: Like) {
    && s'.rows == s.rows + {l} && OthersCounted(s, s', l.target)
    && Count(s', l.target) == Count(s, l.target) + if l in s.rows then 0 else 1
  }

  /** The row is not there, and its target counted down, not below 0, exactly if it was. */
  ghost predicate LeftUnliked(s: State, s': State, l: Like) {
    && s'.rows == s.rows - {l} && OthersCounted(s, s', l.target)
    && Count(s', l.target) == if l in s.rows then Max0(Count(s, l.target) - 1) else Count(s, l.target)
  }

  lemma LikeEnd(s: State, a: TxnId, l: Like, e: Step)
    requires Ends(s, a, e) && a in s.txns && IsLike(s.txns[a], l) && Honest(s, s.txns[a])
    ensures LeftLiked(s, ActNext(s, a, e), l)
  {
  }

  lemma UnlikeEnd(s: State, a: TxnId, l: Like, e: Step)
    requires Ends(s, a, e) && a in s.txns && IsUnlike(s.txns[a], l) && Honest(s, s.txns[a]) && Tables(s)
    ensures LeftUnliked(s, ActNext(s, a, e), l)
  {
  }

  lemma HonestNow(t: Trace, a: TxnId)
    requires Legal(t) && a in Last(t).txns
    ensures Honest(Last(t), Last(t).txns[a]) && Tables(Last(t))
  {
    EveryRunIsSound(t);
  }

  /** A like that ends without rolling back leaves its row, and counts up exactly if the row was missing. */
  lemma LikeTakesEffect(t: Trace, begin: Trace, a: TxnId, l: Like, e: Step)
    requires Legal(t) && Legal(begin) && begin.Then? && begin.event == Act(a, BeginLike(l)) && Open(t, begin, a)
    requires Ends(Last(t), a, e)
    ensures LeftLiked(Last(t), ActNext(Last(t), a, e), l)
  {
    StaysLike(t, begin, a, l);
    HonestNow(t, a);
    LikeEnd(Last(t), a, l, e);
  }

  /** An unlike that ends without rolling back leaves no row, and counts down, not below 0, exactly if there was one. */
  lemma UnlikeTakesEffect(t: Trace, begin: Trace, a: TxnId, l: Like, e: Step)
    requires Legal(t) && Legal(begin) && begin.Then? && begin.event == Act(a, BeginUnlike(l)) && Open(t, begin, a)
    requires Ends(Last(t), a, e)
    ensures LeftUnliked(Last(t), ActNext(Last(t), a, e), l)
  {
    StaysLike(t, begin, a, l);
    HonestNow(t, a);
    UnlikeEnd(Last(t), a, l, e);
  }

  // ---- deleting a post ---------------------------------------------------------------------------------------

  ghost predicate CountersApart(t: Txn, u: Txn) { forall x :: LocksCounter(t, x) ==> !LocksCounter(u, x) }

  /** Counter locks are exclusive, and a deletion has listed every like of its post. */
  ghost predicate Exclusive(s: State) {
    && (forall a, b :: a in s.txns && b in s.txns && a != b ==> CountersApart(s.txns[a], s.txns[b]))
    && (forall a :: a in s.txns ==> Listed(s, s.txns[a]))
  }

  ghost predicate Listed(s: State, t: Txn) { t.PostEmptied? ==> RowsOn(s, t.target) <= t.cut }

  lemma OwnCounters(s: State, a: TxnId, e: Step, x: Target)
    requires Ready(s, a, e) && a in ActNext(s, a, e).txns && LocksCounter(ActNext(s, a, e).txns[a], x)
    ensures (a in s.txns && LocksCounter(s.txns[a], x)) || CounterFree(s, a, x)
  {
  }

  lemma OwnApart(s: State, a: TxnId, e: Step, b: TxnId)
    requires Exclusive(s) && Ready(s, a, e) && a in ActNext(s, a, e).txns && b in s.txns && b != a
    ensures CountersApart(ActNext(s, a, e).txns[a], s.txns[b]) && CountersApart(s.txns[b], ActNext(s, a, e).txns[a])
  {
    forall x | LocksCounter(ActNext(s, a, e).txns[a], x) ensures !LocksCounter(s.txns[b], x) {
      OwnCounters(s, a, e, x);
      if a in s.txns { assert CountersApart(s.txns[a], s.txns[b]); }
    }
  }

  lemma ApartNext(s: State, e: Event)
    requires Exclusive(s) && Enabled(s, e)
    ensures var s' := Next(s, e);
            forall a, b :: a in s'.txns && b in s'.txns && a != b ==> CountersApart(s'.txns[a], s'.txns[b])
  {
    var s' := Next(s, e);
    forall a, b | a in s'.txns && b in s'.txns && a != b ensures CountersApart(s'.txns[a], s'.txns[b]) {
      if e.Act? && e.txn == a {
        OthersStand(s, e, b);
        OwnApart(s, a, e.step, b);
      } else if e.Act? && e.txn == b {
        OthersStand(s, e, a);
        OwnApart(s, b, e.step, a);
      } else {
        OthersStand(s, e, a);
        OthersStand(s, e, b);
      }
    }
  }

  /** Nobody adds a like to a post whose counter another transaction has locked. */
  lemma NoLikeAdded(s: State, e: Event, x: Target)
    requires Enabled(s, e) && (e.Act? && e.step.Commit? ==> !LocksCounter(s.txns[e.txn], x))
    ensures RowsOn(Next(s, e), x) <= RowsOn(s, x)
  {
  }

  lemma ListedNext(s: State, e: Event, b: TxnId)
    requires Exclusive(s) && Enabled(s, e) && b in Next(s, e).txns
    ensures Listed(Next(s, e), Next(s, e).txns[b])
  {
    if e.Act? && e.txn == b {
      if b in s.txns { assert Listed(s, s.txns[b]); }
    } else {
      OthersStand(s, e, b);
      assert Listed(s, s.txns[b]);
      var t := s.txns[b];
      if t.PostEmptied? {
        if e.Act? && e.step.Commit? { assert CountersApart(t, s.txns[e.txn]) && LocksCounter(t, t.target); }
        NoLikeAdded(s, e, t.target);
      }
    }
  }

  lemma {:induction false} EveryRunIsExclusive(t: Trace)
    requires Legal(t)
    ensures Exclusive(Last(t))
  {
    if t.Then? {
      var s := Last(t.prev);
      EveryRunIsExclusive(t.prev);
      ApartNext(s, t.event);
      forall b | b in Last(t).txns ensures Listed(Last(t), Last(t).txns[b]) { ListedNext(s, t.event, b); }
    }
  }

  ghost predicate Deletes(t: Txn, x: Target) { (t.PostMarked? || t.PostEmptied?) && t.target == x }

  lemma DeletionGoesOn(s: State, a: TxnId, e: Step, x: Target)
    requires Ready(s, a, e) && a in s.txns && Deletes(s.txns[a], x) && a in ActNext(s, a, e).txns
    ensures Deletes(ActNext(s, a, e).txns[a], x)
  {
  }

  lemma {:induction false} StaysDeletion(t: Trace, begin: Trace, a: TxnId, x: Target)
    requires Legal(t) && Legal(begin) && begin.Then? && begin.event == Act(a, MarkPost(x)) && Open(t, begin, a)
    ensures Deletes(Last(t).txns[a], x)
  {
    if t != begin {
      StaysDeletion(t.prev, begin, a, x);
      if t.event.Act? && t.event.txn == a {
        DeletionGoesOn(Last(t.prev), a, t.event.step, x);
      } else {
        OthersStand(Last(t.prev), t.event, a);
      }
    }
  }

  /** A deletion that commits marks the post and leaves not one like of it, and touches nothing else. */
  lemma PostDeletionTakesEffect(t: Trace, begin: Trace, a: TxnId, x: Target, e: Step)
    requires Legal(t) && Legal(begin) && begin.Then? && begin.event == Act(a, MarkPost(x)) && Open(t, begin, a)
    requires Ends(Last(t), a, e)
    ensures var s, s' := Last(t), ActNext(Last(t), a, e);
            && x in s'.deleted && Likers(s'.rows, x) == {} && s'.rows == s.rows - RowsOn(s, x)
            && s'.deleted == s.deleted + {x} && s'.counts == s.counts
  {
    StaysDeletion(t, begin, a, x);
    EveryRunIsSound(t);
    EveryRunIsExclusive(t);
    assert Honest(Last(t), Last(t).txns[a]) && Listed(Last(t), Last(t).txns[a]);
  }

  // ---- they can end --------------------------------------------------------------------------------------------

  lemma UnlikeRemoves(t: Trace, l: Like) returns (t': Trace)
    requires Legal(t) && Last(t).txns == map[] && l in Last(t).rows && Ready(Last(t), 0, BeginUnlike(l))
    ensures Legal(t') && Beside(Last(t'), Last(t), 0, Removed(l))
  {
    var t1 := Does(t, 0, BeginUnlike(l));
    t' := Does(t1, 0, Remove);
    assert Last(t').txns == map[0 := Removed(l)];
  }

  lemma UnlikeCountsDown(t: Trace, l: Like, base: State) returns (t': Trace)
    requires Legal(t) && base.txns == map[] && Beside(Last(t), base, 0, Removed(l))
    ensures Legal(t') && Beside(Last(t'), base, 0, Unliked(l))
  {
    t' := Does(t, 0, CountDown);
    assert Last(t').txns == map[0 := Unliked(l)];
  }

  /** When nobody else is at work, an unlike goes through. */
  lemma UnlikesAlone(t: Trace, l: Like) returns (t': Trace)
    requires Legal(t) && Last(t).txns == map[] && l in Last(t).rows
    requires l.target in Last(t).counts && l.user in Last(t).users && l.user !in Last(t).withdrawn
    ensures Legal(t') && Last(t').rows == Last(t).rows - {l} && Last(t').txns == map[]
    ensures Count(Last(t'), l.target) == Max0(Count(Last(t), l.target) - 1)
  {
    var t1 := UnlikeRemoves(t, l);
    var t2 := UnlikeCountsDown(t1, l, Last(t));
    t' := CommitsBeside(t2, 0, Unliked(l), Last(t));
  }

  /** When nobody else is at work, a post can be deleted. */
  lemma DeletesAlone(t: Trace, x: Target) returns (t': Trace)
    requires Legal(t) && Last(t).txns == map[] && x.PostTarget? && x in Last(t).counts && x !in Last(t).deleted
    ensures Legal(t') && x in Last(t').deleted && Likers(Last(t').rows, x) == {} && Last(t').txns == map[]
  {
    var base := Last(t);
    var t1 := Does(t, 0, MarkPost(x));
    assert Beside(Last(t1), base, 0, PostMarked(x));
    var t2 := Does(t1, 0, EmptyPost);
    assert Beside(Last(t2), base, 0, PostEmptied(x, RowsOn(base, x)));
    t' := CommitsBeside(t2, 0, PostEmptied(x, RowsOn(base, x)), base);
  }
}
