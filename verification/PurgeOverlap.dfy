/**
 * Purges side by side. Purges that share no user always apply sums that are still right. A purge
 * that waited for another one over the same user takes the same likes off twice, and a purge
 * misses a like that stayed open for longer than the retention period.
 */
module PurgeOverlap {
  import opened Likes
  import opened LikeCounts
  import opened LikeDrift

  // ---- purges without a common user ------------------------------------------------------------------

  ghost predicate Alone(s: State, e: Step) {
    e.SelectUsers? ==> forall b, u :: b in s.txns && u in e.users ==> !Purges(s.txns[b], u)
  }

  /** No user is selected while another purge works on them. */
  ghost predicate Separate(t: Trace)
    requires Legal(t)
  {
    t.Then? ==> Separate(t.prev) && (t.event.Act? ==> Alone(Last(t.prev), t.event.step))
  }

  ghost predicate ReadOk(s: State, t: Txn) {
    && (t.PostsRead? ==> Fresh(s, t.users, t.next, false))
    && (t.CommentsRead? ==> Fresh(s, t.users, t.next, true))
  }

  ghost predicate Disjoint(s: State) {
    forall a, b, u :: a in s.txns && b in s.txns && a != b && Purges(s.txns[a], u) ==> !Purges(s.txns[b], u)
  }

  ghost predicate Reads(s: State) { Disjoint(s) && forall a :: a in s.txns ==> ReadOk(s, s.txns[a]) }

  /** The likes that count for a purge are as they were. */
  ghost predicate Spared(s: State, s': State, u: Txn) {
    && s.counts.Keys <= s'.counts.Keys && s.deleted <= s'.deleted
    && forall l: Like :: Purges(u, l.user) && l.target !in s'.deleted ==> (l in s.rows <==> l in s'.rows)
  }

  lemma FreshKept(s: State, s': State, u: Txn, comments: bool)
    requires TablesOk(s) && Spared(s, s', u) && (u.PostsRead? || u.CommentsRead?) && u.next.Keys <= s.counts.Keys
    requires Fresh(s, u.users, u.next, comments)
    ensures Fresh(s', u.users, u.next, comments)
  {
    forall x | x in s'.counts && x !in s'.deleted && x.CommentTarget? == comments
      ensures Taken(u.next, x) == Share(s'.rows, x, u.users)
    {
      forall l: Like | l.target == x && l.user in u.users ensures l in s.rows <==> l in s'.rows {
        assert Purges(u, l.user);
      }
      SameShare(s.rows, s'.rows, x, u.users);
      if x !in s.counts { assert Likers(s.rows, x) * u.users == {}; }
    }
  }

  lemma ReadKept(s: State, s': State, u: Txn)
    requires TablesOk(s) && TxnOk(s, u) && ReadOk(s, u) && Spared(s, s', u)
    ensures ReadOk(s', u)
  {
    if u.PostsRead? { FreshKept(s, s', u, false); }
    if u.CommentsRead? { FreshKept(s, s', u, true); }
  }

  lemma CommitSpares(s: State, t: Txn, u: Txn)
    requires TxnOk(s, t) && Apart(t, u) && forall v :: Purges(t, v) ==> !Purges(u, v)
    ensures Spared(s, Committed(s, t), u)
  {
    if t.Liked? || t.Unliked? { assert ActsFor(t, t.like.user); }
    if t.UsersDropped? { forall l | l in t.cut ensures !Purges(u, l.user) { assert Purges(t, l.user); } }
  }

  lemma QuietEventSpares(s: State, e: Event, u: Txn)
    requires Enabled(s, e) && (e.Act? ==> !e.step.Commit?)
    ensures Spared(s, Next(s, e), u)
  {
  }

  lemma EventSpares(s: State, e: Event, b: TxnId)
    requires Inv(s) && Disjoint(s) && Enabled(s, e) && b in s.txns && (e.Act? ==> e.txn != b)
    ensures Spared(s, Next(s, e), s.txns[b])
  {
    if e.Act? && e.step.Commit? {
      assert TxnOk(s, s.txns[e.txn]) && Apart(s.txns[e.txn], s.txns[b]);
      CommitSpares(s, s.txns[e.txn], s.txns[b]);
    } else {
      QuietEventSpares(s, e, s.txns[b]);
    }
  }

  lemma OwnRead(s: State, a: TxnId, e: Step)
    requires Reads(s) && Ready(s, a, e) && !e.Commit? && a in ActNext(s, a, e).txns
    ensures ReadOk(ActNext(s, a, e), ActNext(s, a, e).txns[a])
  {
    if a in s.txns { assert ReadOk(s, s.txns[a]); }
  }

  lemma OwnPurge(s: State, a: TxnId, e: Step, u: UserId)
    requires Ready(s, a, e) && a in ActNext(s, a, e).txns && Purges(ActNext(s, a, e).txns[a], u)
    ensures (a in s.txns && Purges(s.txns[a], u)) || (e.SelectUsers? && u in e.users)
  {
  }

  lemma OwnDisjoint(s: State, a: TxnId, e: Step, b: TxnId, u: UserId)
    requires Disjoint(s) && Ready(s, a, e) && Alone(s, e) && a in ActNext(s, a, e).txns && b in s.txns && a != b
    requires Purges(ActNext(s, a, e).txns[a], u)
    ensures !Purges(s.txns[b], u)
  {
    OwnPurge(s, a, e, u);
  }

  lemma StillDisjoint(s: State, e: Event)
    requires Disjoint(s) && Enabled(s, e) && (e.Act? ==> Alone(s, e.step))
    ensures Disjoint(Next(s, e))
  {
    var s' := Next(s, e);
    forall a, b, u | a in s'.txns && b in s'.txns && a != b && Purges(s'.txns[a], u) ensures !Purges(s'.txns[b], u) {
      if e.Act? && e.txn == a {
        OthersStand(s, e, b);
        OwnDisjoint(s, a, e.step, b, u);
      } else if e.Act? && e.txn == b {
        OthersStand(s, e, a);
        if Purges(s'.txns[b], u) { OwnDisjoint(s, b, e.step, a, u); }
      } else {
        OthersStand(s, e, a);
        OthersStand(s, e, b);
      }
    }
  }

  lemma ReadsNext(s: State, e: Event)
    requires Inv(s) && Reads(s) && Enabled(s, e) && (e.Act? ==> Alone(s, e.step))
    ensures Reads(Next(s, e))
  {
    var s' := Next(s, e);
    StillDisjoint(s, e);
    forall b | b in s'.txns ensures ReadOk(s', s'.txns[b]) {
      if e.Act? && e.txn == b {
        OwnRead(s, b, e.step);
      } else {
        OthersStand(s, e, b);
        EventSpares(s, e, b);
        assert TxnOk(s, s.txns[b]) && ReadOk(s, s.txns[b]);
        ReadKept(s, s', s.txns[b]);
      }
    }
  }

  /** Purges that share no user apply their sums as they are, however the statements interleave. */
  lemma {:induction false} SeparatePurgesArePrompt(t: Trace)
    requires Legal(t) && Settled(t) && Separate(t)
    ensures Prompt(t) && Reads(Last(t))
  {
    if t.Then? {
      SeparatePurgesArePrompt(t.prev);
      EveryRun(t.prev);
      var s := Last(t.prev);
      if t.event.Act? && t.event.txn in s.txns { assert ReadOk(s, s.txns[t.event.txn]); }
      ReadsNext(s, t.event);
    }
  }

  lemma {:induction false} ExactThroughout(t: Trace, x: Target)
    requires Legal(t) && Settled(t) && Prompt(t)
    ensures AlwaysExact(t, x)
  {
    EveryRun(t);
    assert Counted(Last(t), x) ==> Matches(Last(t), x);
    if t.Then? { ExactThroughout(t.prev, x); }
  }

  /** What the jobs have to keep to: if no like outlasts the retention period and no user is in two
      purges at once, every counter is right all the time, and no commit ever misses one. */
  lemma KeptApartIsExact(t: Trace, x: Target)
    requires Legal(t) && Brief(t) && Separate(t)
    ensures AlwaysExact(t, x) && NeverMissed(t, x)
  {
    RetentionSettles(t);
    SeparatePurgesArePrompt(t);
    ExactThroughout(t, x);
    ExactWhileNotMissed(t, x);
  }

  // ---- a purge that applies stale sums ---------------------------------------------------------------

  /** No like or unlike is open. */
  ghost predicate Idle(s: State) { forall a :: a in s.txns ==> !Acting(s.txns[a]) }

  lemma Does(t: Trace, a: TxnId, e: Step) returns (t': Trace)
    requires Legal(t) && Ready(Last(t), a, e)
    ensures t' == Then(t, Act(a, e)) && Legal(t') && Last(t') == ActNext(Last(t), a, e)
    ensures Brief(t) && Idle(Last(t')) ==> Brief(t')
    ensures Prompt(t) && !e.CutPosts? && !e.CutComments? ==> Prompt(t')
    ensures Separate(t) && !e.SelectUsers? ==> Separate(t')
  {
    t' := Then(t, Act(a, e));
  }

  /** What is left of the tables when a purge applies `sums` to the posts. */
  ghost function PurgedWith(s: State, us: set<UserId>, sums: map<Target, nat>): State {
    s.(counts := Minus(s.counts, sums + Shares(s.rows, us, Comments(s))), rows := s.rows - RowsOf(s, us),
       users := s.users - us)
  }

  /** Beside the transactions of `base`, which hold no lock, there is `a` in the phase given. */
  ghost predicate Beside(s: State, base: State, a: TxnId, phase: Txn) {
    && a !in base.txns && s == Go(base, a, phase)
    && forall b :: b in base.txns ==> base.txns[b].Selected? || base.txns[b].PostsRead?
  }

  lemma CutsPosts(t: Trace, a: TxnId, us: set<UserId>, sums: map<Target, nat>, base: State) returns (t': Trace)
    requires Legal(t) && Beside(Last(t), base, a, PostsRead(us, sums))
    ensures Legal(t') && Beside(Last(t'), base, a, PostsCut(us, sums)) && (Brief(t) ==> Brief(t'))
  {
    t' := Does(t, a, CutPosts);
    assert Last(t').txns == base.txns[a := PostsCut(us, sums)];
  }

  lemma ReadsComments(t: Trace, a: TxnId, us: set<UserId>, sums: map<Target, nat>, base: State) returns (t': Trace)
    requires Legal(t) && Beside(Last(t), base, a, PostsCut(us, sums))
    ensures Legal(t') && Beside(Last(t'), base, a, CommentsRead(us, sums, Shares(base.rows, us, Comments(base))))
    ensures Brief(t) ==> Brief(t')
  {
    t' := Does(t, a, ReadComments);
    assert Last(t').txns == base.txns[a := CommentsRead(us, sums, Shares(base.rows, us, Comments(base)))];
  }

  lemma CutsComments(t: Trace, a: TxnId, us: set<UserId>, n: map<Target, nat>, m: map<Target, nat>, base: State)
    returns (t': Trace)
    requires Legal(t) && Beside(Last(t), base, a, CommentsRead(us, n, m))
    ensures Legal(t') && Beside(Last(t'), base, a, AllCut(us, n + m)) && (Brief(t) ==> Brief(t'))
  {
    t' := Does(t, a, CutComments);
    assert Last(t').txns == base.txns[a := AllCut(us, n + m)];
  }

  lemma DropsUsers(t: Trace, a: TxnId, us: set<UserId>, n: map<Target, nat>, base: State) returns (t': Trace)
    requires Legal(t) && Beside(Last(t), base, a, AllCut(us, n))
    ensures Legal(t') && Beside(Last(t'), base, a, UsersDropped(us, n, RowsOf(base, us))) && (Brief(t) ==> Brief(t'))
  {
    t' := Does(t, a, DropUsers);
    assert Last(t').txns == base.txns[a := UsersDropped(us, n, RowsOf(base, us))];
  }

  lemma CommitsBeside(t: Trace, a: TxnId, phase: Txn, base: State) returns (t': Trace)
    requires Legal(t) && Beside(Last(t), base, a, phase) && Ready(Last(t), a, Commit)
    ensures Legal(t') && Last(t') == Committed(base, phase) && (Brief(t) ==> Brief(t'))
  {
    t' := Does(t, a, Commit);
    assert Last(t).txns - {a} == base.txns;
  }

  lemma CutsAll(t: Trace, a: TxnId, us: set<UserId>, sums: map<Target, nat>, base: State) returns (t': Trace)
    requires Legal(t) && Beside(Last(t), base, a, PostsRead(us, sums))
    ensures Legal(t') && (Brief(t) ==> Brief(t'))
    ensures Beside(Last(t'), base, a, AllCut(us, sums + Shares(base.rows, us, Comments(base))))
  {
    var t1 := CutsPosts(t, a, us, sums, base);
    var t2 := ReadsComments(t1, a, us, sums, base);
    t' := CutsComments(t2, a, us, sums, Shares(base.rows, us, Comments(base)), base);
  }

  /** A purge that has summed up its posts can go on to its commit while nobody holds a lock. */
  lemma PurgeGoesOn(t: Trace, a: TxnId, us: set<UserId>, sums: map<Target, nat>, base: State) returns (t': Trace)
    requires Legal(t) && Beside(Last(t), base, a, PostsRead(us, sums))
    ensures Legal(t') && Last(t') == PurgedWith(base, us, sums) && (Brief(t) ==> Brief(t'))
  {
    var n := sums + Shares(base.rows, us, Comments(base));
    var t1 := CutsAll(t, a, us, sums, base);
    var t2 := DropsUsers(t1, a, us, n, base);
    t' := CommitsBeside(t2, a, UsersDropped(us, n, RowsOf(base, us)), base);
  }

  // ---- runs that leave a counter wrong ---------------------------------------------------------------

  const X := PostTarget(0)
  const LIKE0 := Like(X, 0)
  const LIKE1 := Like(X, 1)

  /** One step of the only open like, which began just now. */
  lemma LikesOn(t: Trace, e: Step, base: State) returns (t': Trace)
    requires Legal(t) && Brief(t) && base.txns == map[] && Ready(Last(t), 0, e) && Last(t).now == base.now
    requires e.BeginLike? || (BeganAt(t, 0) == base.now && !e.BeginUnlike?)
    requires ActNext(Last(t), 0, e).txns.Keys <= {0}
    ensures Legal(t') && Brief(t') && Last(t') == ActNext(Last(t), 0, e) && BeganAt(t', 0) == base.now
  {
    t' := Then(t, Act(0, e));
    assert BriefNow(t');
  }

  /** The only open like is in the phase given and began at the time of `base`. */
  ghost predicate OneLike(t: Trace, base: State, phase: Txn) {
    Legal(t) && Brief(t) && base.txns == map[] && Beside(Last(t), base, 0, phase) && BeganAt(t, 0) == base.now
  }

  lemma LikeStarts(t: Trace, l: Like) returns (t': Trace)
    requires Legal(t) && Brief(t) && Last(t).txns == map[] && Ready(Last(t), 0, BeginLike(l))
    ensures OneLike(t', Last(t), Liking(l))
  {
    t' := LikesOn(t, BeginLike(l), Last(t));
  }

  lemma LikeInserts(t: Trace, l: Like, base: State) returns (t': Trace)
    requires OneLike(t, base, Liking(l)) && l !in base.rows
    ensures OneLike(t', base, Inserted(l))
  {
    t' := LikesOn(t, Insert, base);
    assert base.txns[0 := Liking(l)][0 := Inserted(l)] == base.txns[0 := Inserted(l)];
  }

  lemma LikeCountsUp(t: Trace, l: Like, base: State) returns (t': Trace)
    requires OneLike(t, base, Inserted(l))
    ensures OneLike(t', base, Liked(l))
  {
    t' := LikesOn(t, CountUp, base);
    assert base.txns[0 := Inserted(l)][0 := Liked(l)] == base.txns[0 := Liked(l)];
  }

  /** A whole like by a user who is alone. */
  lemma LikesAlone(t: Trace, l: Like) returns (t': Trace)
    requires Legal(t) && Brief(t) && Last(t).txns == map[] && l !in Last(t).rows
    requires l.target in Last(t).counts && l.user in Last(t).users && l.user !in Last(t).withdrawn
    ensures Legal(t') && Brief(t')
    ensures var s := Last(t);
            Last(t') == s.(rows := s.rows + {l}, counts := s.counts[l.target := s.counts[l.target] + 1])
  {
    var t1 := LikeStarts(t, l);
    var t2 := LikeInserts(t1, l, Last(t));
    var t3 := LikeCountsUp(t2, l, Last(t));
    t' := CommitsBeside(t3, 0, Liked(l), Last(t));
  }

  lemma OnePost() returns (t: Trace)
    ensures Legal(t) && Brief(t) && Last(t) == State(0, map[X := 0], {}, {}, {0, 1}, map[], map[])
  {
    var t1 := Then(Start, CreateTarget(X));
    var t2 := Then(t1, SignUp(0));
    t := Then(t2, SignUp(1));
    assert Legal(t1) && Legal(t2) && Brief(t1) && Brief(t2);
  }

  const LATER: int := RETENTION_SECONDS + 1

  /** A post liked by users 0 and 1, and user 0 withdrew more than the retention period ago. */
  lemma TwoLikes() returns (t: Trace)
    ensures Legal(t) && Brief(t) && Last(t) == State(LATER, map[X := 2], {}, {LIKE0, LIKE1}, {0, 1}, map[0 := 0], map[])
  {
    var t1 := OnePost();
    var t2 := LikesAlone(t1, LIKE0);
    var t3 := LikesAlone(t2, LIKE1);
    assert Last(t3) == State(0, map[X := 2], {}, {LIKE0, LIKE1}, {0, 1}, map[], map[]);
    var t4 := Then(t3, Withdraw(0));
    assert Legal(t4) && Brief(t4);
    t := Then(t4, Tick(LATER));
  }

  lemma SumsOfZero(s: State)
    requires s.counts.Keys == {X} && LIKE0 in s.rows && forall l :: l in s.rows ==> l.target == X
    ensures Shares(s.rows, {0}, Posts(s)) == map[X := 1] && Shares(s.rows, {0}, Comments(s)) == map[]
  {
    assert Likers(s.rows, X) * {0} == {0};
  }

  /** Transaction `a` selects user 0 and sums up the posts. */
  lemma SelectsAndSums(t: Trace, a: TxnId, base: State) returns (t': Trace)
    requires Legal(t) && Brief(t) && Last(t) == base && a !in base.txns && 0 in base.users && Purgeable(base, 0)
    requires base.counts.Keys == {X} && LIKE0 in base.rows && forall l :: l in base.rows ==> l.target == X
    requires forall b :: b in base.txns ==> base.txns[b].Selected? || base.txns[b].PostsRead?
    ensures Legal(t') && Brief(t') && Beside(Last(t'), base, a, PostsRead({0}, map[X := 1]))
  {
    var t1 := Does(t, a, SelectUsers({0}));
    t' := Does(t1, a, ReadPosts);
    SumsOfZero(base);
    assert Last(t').txns == base.txns[a := PostsRead({0}, map[X := 1])];
  }

  lemma FirstPurge() returns (t: Trace)
    ensures Legal(t) && Brief(t)
    ensures Last(t) == State(LATER, map[X := 1], {}, {LIKE1}, {1}, map[0 := 0], map[1 := PostsRead({0}, map[X := 1])])
  {
    var read := PostsRead({0}, map[X := 1]);
    var t0 := TwoLikes();
    var t1 := SelectsAndSums(t0, 0, Last(t0));
    var t2 := SelectsAndSums(t1, 1, Last(t1));
    var base := Go(Last(t0), 1, read);
    assert Last(t2).txns == base.txns[0 := read];
    t := PurgeGoesOn(t2, 0, {0}, map[X := 1], base);
    SumsOfZero(base);
    assert Minus(map[X := 2], map[X := 1]) == map[X := 1];
    assert base.rows - RowsOf(base, {0}) == {LIKE1} && {0, 1} - {0} == {1};
  }

  /** Two purges of one user have both summed up a post; the second takes the same like off again. */
  lemma WaitingPurgeCutsTwice() returns (t: Trace)
    ensures Legal(t) && Brief(t) && X in Last(t).counts && Last(t).counts[X] == 0 && Likers(Last(t).rows, X) == {1}
  {
    var t1 := FirstPurge();
    var base := Last(t1).(txns := map[]);
    assert Last(t1).txns == base.txns[1 := PostsRead({0}, map[X := 1])];
    t := PurgeGoesOn(t1, 1, {0}, map[X := 1], base);
    assert RowsOf(base, {0}) == {} && Shares(base.rows, {0}, Comments(base)) == map[];
    assert Likers({LIKE1}, X) == {1};
  }

  const EMPTY: map<Target, nat> := map[]

  lemma DoesPromptly(t: Trace, a: TxnId, e: Step) returns (t': Trace)
    requires Legal(t) && Prompt(t) && Ready(Last(t), a, e) && Last(t).rows == {}
    requires a in Last(t).txns && (e.CutPosts? || e.CutComments?) ==> Last(t).txns[a].next == EMPTY
    requires Separate(t) && Alone(Last(t), e)
    ensures Legal(t') && Prompt(t') && Separate(t') && Last(t') == ActNext(Last(t), a, e)
  {
    t' := Then(t, Act(a, e));
    forall x, us ensures Share(Last(t).rows, x, us) == 0 { assert Likers(Last(t).rows, x) * us == {}; }
  }

  /** A like of user 0 has been open since before the withdrawal, and a purge of that user is in the phase given. */
  ghost function InFlight(phase: Txn): State {
    State(LATER, map[X := 0], {}, {}, {0}, map[0 := 0], map[0 := Liked(LIKE0), 1 := phase])
  }

  lemma LikeBegins() returns (t: Trace)
    ensures Legal(t) && Prompt(t) && Separate(t)
    ensures Last(t) == State(0, map[X := 0], {}, {}, {0}, map[], map[0 := Liked(LIKE0)])
  {
    var t1 := Then(Start, CreateTarget(X));
    var t2 := Then(t1, SignUp(0));
    assert Legal(t1) && Legal(t2) && Prompt(t2) && Separate(t2);
    assert Last(t2) == State(0, map[X := 0], {}, {}, {0}, map[], map[]);
    var t3 := DoesPromptly(t2, 0, BeginLike(LIKE0));
    var t4 := DoesPromptly(t3, 0, Insert);
    t := DoesPromptly(t4, 0, CountUp);
  }

  lemma LikeStaysOpen() returns (t: Trace)
    ensures Legal(t) && Prompt(t) && Separate(t)
    ensures Last(t) == State(LATER, map[X := 0], {}, {}, {0}, map[0 := 0], map[0 := Liked(LIKE0)])
  {
    var t0 := LikeBegins();
    var t1 := Then(t0, Withdraw(0));
    assert Legal(t1) && Prompt(t1) && Separate(t1);
    t := Then(t1, Tick(LATER));
  }

  lemma NothingToSum(s: State)
    requires s.rows == {}
    ensures Shares(s.rows, {0}, Posts(s)) == EMPTY && Shares(s.rows, {0}, Comments(s)) == EMPTY
  {
    forall x ensures Share(s.rows, x, {0}) == 0 { assert Likers(s.rows, x) * {0} == {}; }
  }

  lemma PurgeSelects() returns (t: Trace)
    ensures Legal(t) && Prompt(t) && Separate(t) && Last(t) == InFlight(Selected({0}))
  {
    var t0 := LikeStaysOpen();
    t := DoesPromptly(t0, 1, SelectUsers({0}));
  }

  lemma PurgeBegins() returns (t: Trace)
    ensures Legal(t) && Prompt(t) && Separate(t) && Last(t) == InFlight(PostsRead({0}, EMPTY))
  {
    var t0 := PurgeSelects();
    NothingToSum(Last(t0));
    t := DoesPromptly(t0, 1, ReadPosts);
  }

  lemma PurgeCutsNothing() returns (t: Trace)
    ensures Legal(t) && Prompt(t) && Separate(t) && Last(t) == InFlight(PostsCut({0}, EMPTY))
  {
    var t0 := PurgeBegins();
    t := DoesPromptly(t0, 1, CutPosts);
  }

  lemma ReadsNothing() returns (t: Trace)
    ensures Legal(t) && Prompt(t) && Separate(t) && Last(t) == InFlight(CommentsRead({0}, EMPTY, EMPTY))
  {
    var t0 := PurgeCutsNothing();
    NothingToSum(Last(t0));
    t := DoesPromptly(t0, 1, ReadComments);
  }

  lemma SumsNothing() returns (t: Trace)
    ensures Legal(t) && Prompt(t) && Separate(t) && Last(t) == InFlight(AllCut({0}, EMPTY))
  {
    var t0 := ReadsNothing();
    t := DoesPromptly(t0, 1, CutComments);
    assert EMPTY + EMPTY == EMPTY;
  }

  lemma LikeCommitsLate() returns (t: Trace)
    ensures Legal(t) && Prompt(t) && Separate(t)
    ensures Last(t) == State(LATER, map[X := 1], {}, {LIKE0}, {0}, map[0 := 0], map[1 := AllCut({0}, EMPTY)])
  {
    var t0 := SumsNothing();
    t := Does(t0, 0, Commit);
    assert Last(t0).txns - {0} == map[1 := AllCut({0}, EMPTY)];
  }

  lemma UserIsDropped() returns (t: Trace)
    ensures Legal(t) && Prompt(t) && Separate(t)
    ensures var dropped := UsersDropped({0}, EMPTY, {LIKE0});
            Last(t) == State(LATER, map[X := 1], {}, {LIKE0}, {0}, map[0 := 0], map[1 := dropped])
  {
    var t1 := LikeCommitsLate();
    assert RowsOf(Last(t1), {0}) == {LIKE0};
    t := Does(t1, 1, DropUsers);
  }

  /** A like that stayed open for longer than the retention period and commits between the sums and
      the deletion goes with its user but stays in the counter. */
  lemma LikeInFlightStaysCounted() returns (t: Trace)
    ensures Legal(t) && Prompt(t) && Separate(t)
    ensures X in Last(t).counts && Last(t).counts[X] == 1 && Likers(Last(t).rows, X) == {}
  {
    var t1 := UserIsDropped();
    t := Does(t1, 1, Commit);
  }
}
