/** That flushing gets views into the table, and that no state of affairs stands in its way for good. */
module ViewProgress {
  import opened Views
  import opened ViewConservation

  /** A commit whose reply arrives raises the table of every live post by exactly what was drained of it. */
  lemma CommitReachesTheTable(t: Trace, f: nat, p: PostId)
    requires Legal(t) && Enabled(Last(t), Flush(f, Commit(Arrived))) && p in Last(t).live
    ensures var s, s' := Last(t), Next(Last(t), Flush(f, Commit(Arrived)));
            && Get(s'.books.views, p) == Get(s.books.views, p) + Get(s.flushers[f].drain, p)
            && s'.books.buffer == s.books.buffer && Outstanding(s'.flushers[f]) == map[]
  {
    EveryRun(t);
    assert FlusherOk(Last(t).live, Last(t).flushers[f]);
  }

  // ---- going on from a run -----------------------------------------------------------------------------

  ghost predicate Clean(t: Trace) { Legal(t) && Unambiguous(t) && Lossless(t) }

  ghost predicate Extends(t: Trace, start: Trace) { t == start || (t.Then? && Extends(t.prev, start)) }

  /** `t` goes on from `start` with nothing lost, no post made or deleted and no further view. */
  ghost predicate Continues(t: Trace, start: Trace) {
    && Clean(start) && Clean(t) && Extends(t, start) && Last(t).live == Last(start).live
    && forall p :: Seen(t, p) == Seen(start, p)
  }

  lemma {:induction false} ExtendsOn(t: Trace, middle: Trace, start: Trace)
    requires Extends(t, middle) && Extends(middle, start)
    ensures Extends(t, start)
  {
    if t != middle { ExtendsOn(t.prev, middle, start); }
  }

  lemma ContinuesOn(t: Trace, middle: Trace, start: Trace)
    requires Continues(t, middle) && Continues(middle, start)
    ensures Continues(t, start)
  {
    ExtendsOn(t, middle, start);
  }

  predicate Harmless(e: Step) {
    match e
    case Commit(reply) => !reply.LostAfterEffect?
    case MergeRead(ok) => ok
    case MergeField(_, reply) => reply.Arrived?
    case Crash => false
    case _ => true
  }

  lemma Flushes(t: Trace, f: nat, e: Step) returns (t': Trace)
    requires Clean(t) && Enabled(Last(t), Flush(f, e)) && Harmless(e)
    ensures Continues(t', t) && Last(t') == Next(Last(t), Flush(f, e))
  {
    t' := Then(t, Flush(f, e));
    assert Extends(t, t);
  }

  /** All flushers but `f` are as they were. */
  ghost predicate OnlyMoves(s: State, s': State, f: nat) {
    && |s'.flushers| == |s.flushers|
    && forall g :: 0 <= g < |s.flushers| && g != f ==> s'.flushers[g] == s.flushers[g]
  }

  // ---- bringing home what a flusher holds ----------------------------------------------------------------

  ghost predicate Idle(f: Flusher) { Outstanding(f) == map[] && !f.phase.Applying? }

  lemma {:induction false} MergesAll(t: Trace, f: nat) returns (t': Trace)
    requires Clean(t) && f < |Last(t).flushers| && Last(t).flushers[f].phase.Merging?
    ensures Continues(t', t) && OnlyMoves(Last(t), Last(t'), f) && Idle(Last(t').flushers[f])
    decreases |Last(t).flushers[f].phase.left|
  {
    var left := Last(t).flushers[f].phase.left;
    if left == map[] {
      t' := t;
    } else {
      var p :| p in left;
      var t1 := Flushes(t, f, MergeField(p, Arrived));
      assert (left - {p}).Keys == left.Keys - {p} && |left - {p}| < |left|;
      t' := MergesAll(t1, f);
      ContinuesOn(t', t1, t);
    }
  }

  lemma MergesBack(t: Trace, f: nat) returns (t': Trace)
    requires Clean(t) && f < |Last(t).flushers| && Last(t).flushers[f].phase.Failing?
    ensures Continues(t', t) && OnlyMoves(Last(t), Last(t'), f) && Idle(Last(t').flushers[f])
  {
    var t1 := Flushes(t, f, MergeRead(true));
    t' := MergesAll(t1, f);
    ContinuesOn(t', t1, t);
  }

  /** Whatever a flusher is at, it can end without losing a view. */
  lemma ComesHome(t: Trace, f: nat) returns (t': Trace)
    requires Clean(t) && f < |Last(t).flushers|
    ensures Continues(t', t) && OnlyMoves(Last(t), Last(t'), f) && Idle(Last(t').flushers[f])
  {
    var phase := Last(t).flushers[f].phase;
    if phase.Renamed? || phase.Applying? {
      var t1 := Flushes(t, f, if phase.Renamed? then ReadDrain(false) else Abort);
      t' := MergesBack(t1, f);
      ContinuesOn(t', t1, t);
    } else if phase.Failing? {
      t' := MergesBack(t, f);
    } else if phase.Merging? {
      t' := MergesAll(t, f);
    } else {
      t' := t;
    }
  }

  ghost predicate AllIdle(s: State, n: nat) { forall g :: 0 <= g < n && g < |s.flushers| ==> Idle(s.flushers[g]) }

  lemma {:induction false} AllComeHome(t: Trace, n: nat) returns (t': Trace)
    requires Clean(t) && n <= |Last(t).flushers|
    ensures Continues(t', t) && |Last(t').flushers| == |Last(t).flushers| && AllIdle(Last(t'), n)
  {
    if n == 0 {
      t' := t;
    } else {
      var t1 := AllComeHome(t, n - 1);
      t' := ComesHome(t1, n - 1);
      ContinuesOn(t', t1, t);
    }
  }

  // ---- one more flush --------------------------------------------------------------------------------------

  /** Flusher `f` applies its drain, nobody else does, and the buffer is empty. */
  ghost predicate AppliesAlone(s: State, f: nat) {
    && f < |s.flushers| && s.flushers[f].phase.Applying? && s.books.buffer == map[]
    && s.flushers[f].phase.done <= s.flushers[f].phase.fields.Keys
    && forall g :: 0 <= g < |s.flushers| && g != f ==> Idle(s.flushers[g])
  }

  lemma {:induction false} AppliesAll(t: Trace, f: nat) returns (t': Trace)
    requires Clean(t) && AppliesAlone(Last(t), f)
    ensures Continues(t', t) && AppliesAlone(Last(t'), f) && Ready(Last(t').flushers[f], Commit(Arrived))
    decreases Last(t).flushers[f].phase.fields.Keys - Last(t).flushers[f].phase.done
  {
    var phase := Last(t).flushers[f].phase;
    if phase.done == phase.fields.Keys {
      t' := t;
    } else {
      var p :| p in phase.fields && p !in phase.done;
      var t1 := Flushes(t, f, Apply(p));
      t' := AppliesAll(t1, f);
      ContinuesOn(t', t1, t);
    }
  }

  lemma Starts(t: Trace) returns (t': Trace)
    requires Clean(t)
    ensures Continues(t', t) && Last(t') == Next(Last(t), StartFlush)
  {
    t' := Then(t, StartFlush);
    assert Extends(t, t);
  }

  /** When all are idle, one more flush brings the buffer to the table. */
  lemma FlushesOnce(t: Trace) returns (t': Trace)
    requires Clean(t) && AllIdle(Last(t), |Last(t).flushers|)
    ensures Continues(t', t) && Last(t').books.buffer == map[] && AllIdle(Last(t'), |Last(t').flushers|)
  {
    var f := |Last(t).flushers|;
    var t1 := Starts(t);
    var t2 := Flushes(t1, f, Rename(Arrived));
    ContinuesOn(t2, t1, t);
    if Last(t).books.buffer == map[] {
      t' := t2;
    } else {
      var t3 := Flushes(t2, f, ReadDrain(true));
      ContinuesOn(t3, t2, t);
      var t4 := AppliesAll(t3, f);
      ContinuesOn(t4, t3, t);
      t' := Flushes(t4, f, Commit(Arrived));
      ContinuesOn(t', t4, t);
    }
  }

  lemma {:induction false} NothingOutstanding(fs: seq<Flusher>, p: PostId)
    requires forall f :: f in fs ==> Outstanding(f) == map[]
    ensures Total(fs, p) == 0
  {
    if fs != [] { NothingOutstanding(fs[1..], p); }
  }

  /**
   * However flushers overlapped and failed, as long as nothing was lost or ambiguous, the run can go
   * on, with no further view, to a state in which the buffer is empty and the table holds every view
   * of every live post.
   */
  lemma EveryViewCanReachTheTable(t: Trace) returns (t': Trace)
    requires Clean(t)
    ensures Continues(t', t) && Last(t').books.buffer == map[]
    ensures forall p :: p in Last(t).live ==> Get(Last(t').books.views, p) == Seen(t, p)
  {
    var t1 := AllComeHome(t, |Last(t).flushers|);
    t' := FlushesOnce(t1);
    ContinuesOn(t', t1, t);
    forall p | p in Last(t).live ensures Get(Last(t').books.views, p) == Seen(t, p) {
      ViewsAreConserved(t', p);
      NothingOutstanding(Last(t').flushers, p);
    }
  }
}
