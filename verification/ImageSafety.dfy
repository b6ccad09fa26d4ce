/** What holds in every run of the image protocol. */
module ImageSafety {
  import opened Options
  import opened Images
  import opened ImageInvariant

  lemma {:induction false} EveryRun(t: Trace)
    requires Legal(t)
    ensures Inv(Last(t))
  {
    if t.Then? {
      EveryRun(t.prev);
      KeepEvent(Last(t.prev), t.event);
    }
  }

  /** No object without a row: the row has its key and records its size and type. */
  lemma EveryObjectHasItsRow(t: Trace, k: ObjectKey)
    requires Legal(t) && k in Last(t).bucket
    ensures exists i :: i in Last(t).images && Describes(Last(t).images[i], k, Last(t).bucket[k])
    ensures ValidObject(Last(t).bucket[k])
  {
    EveryRun(t);
    var s := Last(t);
    var i :| i in s.keyOf && s.keyOf[i] == k;
    assert Describes(s.images[i], k, s.bucket[k]);
  }

  /** A referenced image has a row that is not marked; a marked row is unreferenced. */
  lemma ReferencedImagesAreLive(t: Trace)
    requires Legal(t)
    ensures forall r :: r in Last(t).refs ==> Live(Last(t), r.image)
    ensures forall i :: Marked(Last(t), i) ==> Unreferenced(Last(t), i)
  {
    EveryRun(t);
  }

  /** A sign-up image is never confirmed before its upload token was stored. */
  lemma LiveSignupImagesHaveTokens(t: Trace, i: ImageId)
    requires Legal(t) && Live(Last(t), i) && Last(t).images[i].key.purpose.Signup?
    ensures i in Last(t).tokens
  {
    EveryRun(t);
  }

  /** An upload that commits: its row was still reserved, and its object is the validated one. */
  lemma ConfirmedUploadIsWhole(t: Trace, a: ActorId)
    requires Legal(t) && UploadEnabled(Last(t), a, CommitUpload)
    ensures var s, s', u := Last(t), UploadNext(Last(t), a, CommitUpload), Last(t).actors[a];
            && Marked(s, u.id) && Live(s', u.id) && Describes(s'.images[u.id], u.key, u.obj)
            && u.key in s'.bucket && s'.bucket[u.key] == u.obj && ValidObject(u.obj)
            && u.obj.etag in s'.contents && s'.contents[u.obj.etag] == u.obj
  {
    EveryRun(t);
    assert TxnOk(Last(t), Last(t).actors[a]);
  }

  /** The confirming UPDATE always finds its row: the branch for a reclaimed row is dead. */
  lemma ConfirmFindsItsRow(t: Trace, a: ActorId)
    requires Legal(t) && UploadEnabled(Last(t), a, Confirm)
    ensures a in UploadNext(Last(t), a, Confirm).actors && UploadNext(Last(t), a, Confirm).actors[a].Confirmed?
  {
    EveryRun(t);
    assert TxnOk(Last(t), Last(t).actors[a]);
  }

  // ---- from lock to commit ---------------------------------------------------------------------

  /** The upload has locked its row and not committed yet. */
  ghost predicate Uploading(s: State, a: ActorId) {
    a in s.actors && (s.actors[a].Locked? || s.actors[a].Promoted? || s.actors[a].Confirmed?)
  }

  ghost predicate Untouched(s: State, s': State, a: ActorId)
    requires Uploading(s, a)
  {
    var u := s.actors[a];
    && a in s'.actors && s'.actors[a] == u
    && u.id in s.images && u.id in s'.images && s'.images[u.id] == s.images[u.id]
    && (u.key in s'.bucket <==> u.key in s.bucket)
    && (u.key in s.bucket ==> s'.bucket[u.key] == s.bucket[u.key])
  }

  /** `t` goes on from `start` and `a` does nothing and does not crash. */
  ghost predicate Waits(t: Trace, start: Trace, a: ActorId) {
    t == start || (t.Then? && Waits(t.prev, start, a) && (t.event.Env? || t.event.actor != a))
  }

  /** From lock to commit nothing others do, however much of it, reaches the row or the object. */
  lemma {:induction false} UploadIsUntouched(t: Trace, start: Trace, a: ActorId)
    requires Legal(t) && Legal(start) && Uploading(Last(start), a) && Waits(t, start, a)
    ensures Untouched(Last(start), Last(t), a)
  {
    if t != start {
      UploadIsUntouched(t.prev, start, a);
      EventLeavesUpload(t.prev, a, t.event);
    } else {
      EveryRun(t);
      Elsewhere(Last(t), a);
    }
  }

  lemma EventLeavesUpload(t: Trace, a: ActorId, e: Event)
    requires Legal(t) && Uploading(Last(t), a) && Enabled(Last(t), e)
    requires e.Env? || e.actor != a
    ensures Untouched(Last(t), Next(Last(t), e), a)
  {
    EveryRun(t);
    Elsewhere(Last(t), a);
    UntouchedBy(Last(t), a, e);
  }

  lemma UntouchedBy(s: State, a: ActorId, e: Event)
    requires Uploading(s, a) && Alone(s, a) && Enabled(s, e) && (e.Env? || e.actor != a)
    ensures Untouched(s, Next(s, e), a)
  {
    match e
    case Env(step) => UntouchedByEnv(s, a, step);
    case Upload(b, step) => UntouchedByUpload(s, a, b, step);
    case Use(b, step) => UntouchedByUse(s, a, b, step);
    case Sweep(b, step) => UntouchedBySweep(s, a, b, step);
    case Crash(_) =>
  }

  /** What the locks keep the others from: the row and the key of the upload. */
  ghost predicate Alone(s: State, a: ActorId)
    requires Uploading(s, a)
  {
    var u := s.actors[a];
    && u.id in s.images && u.id in s.keyOf && s.keyOf[u.id] == u.key
    && (forall b :: b in s.actors && b != a ==> Away(s, s.actors[b], u.id, u.key))
    && (forall i :: i in s.images && i != u.id ==> s.images[i].key != u.key)
  }

  ghost predicate Away(s: State, t: Txn, i: ImageId, k: ObjectKey) {
    && Holds(t, i).None? && UploadOf(t) != Some(i) && (UploadOf(t).Some? ==> t.key != k)
    && (t.RowsDeleted? ==> t.gone <= t.ids) && (t.Sweeping? ==> t.todo <= t.ids)
  }

  lemma Elsewhere(s: State, a: ActorId)
    requires Inv(s) && Uploading(s, a)
    ensures Alone(s, a)
  {
    var u := s.actors[a];
    assert TxnOk(s, u);
    forall b | b in s.actors && b != a ensures Away(s, s.actors[b], u.id, u.key) {
      assert Apart(u, s.actors[b]) && TxnOk(s, s.actors[b]);
      LockedOut(u, s.actors[b], u.id);
    }
  }

  lemma UntouchedByEnv(s: State, a: ActorId, e: EnvStep)
    requires Uploading(s, a) && Alone(s, a) && EnvEnabled(s, e)
    ensures Untouched(s, EnvNext(s, e), a)
  {
    if e.PurgeUser? { assert !Compatible(s.actors[a], s.actors[a].id, NoKeyUpdate); }
  }

  lemma UntouchedByUpload(s: State, a: ActorId, b: ActorId, e: UploadStep)
    requires Uploading(s, a) && Alone(s, a) && UploadEnabled(s, b, e) && b != a
    ensures Untouched(s, UploadNext(s, b, e), a)
  {
    if b in s.actors { assert Away(s, s.actors[b], s.actors[a].id, s.actors[a].key); }
  }

  lemma UntouchedByUse(s: State, a: ActorId, b: ActorId, e: UseStep)
    requires Uploading(s, a) && Alone(s, a) && UseEnabled(s, b, e) && b != a
    ensures Untouched(s, UseNext(s, b, e), a)
  {
    if b in s.actors { assert Away(s, s.actors[b], s.actors[a].id, s.actors[a].key); }
  }

  lemma UntouchedBySweep(s: State, a: ActorId, b: ActorId, e: SweepStep)
    requires Uploading(s, a) && Alone(s, a) && SweepEnabled(s, b, e) && b != a
    ensures Untouched(s, SweepNext(s, b, e), a)
  {
    if b in s.actors { assert Away(s, s.actors[b], s.actors[a].id, s.actors[a].key); }
  }

  // ---- when a sweeper comes first --------------------------------------------------------------

  /** A reserved row that was reclaimed first: no object has its key, and the upload can only fail. */
  lemma ReclaimedBeforeLock(t: Trace, a: ActorId)
    requires Legal(t) && a in Last(t).actors && Last(t).actors[a].Reserved? && Last(t).actors[a].id !in Last(t).images
    ensures Owns(Last(t), Last(t).actors[a].id, Last(t).actors[a].key)
    ensures Last(t).actors[a].key !in Last(t).bucket
    ensures UploadEnabled(Last(t), a, LockReserved) && UploadNext(Last(t), a, LockReserved) == End(Last(t), a)
  {
    EveryRun(t);
    assert TxnOk(Last(t), Last(t).actors[a]);
  }

  /** `t` goes on from `start`. */
  ghost predicate Extends(t: Trace, start: Trace) { t == start || (t.Then? && Extends(t.prev, start)) }

  lemma {:induction false} GoneFrom(t: Trace, start: Trace, i: ImageId)
    requires Legal(t) && Legal(start) && Extends(t, start) && i in Last(start).keyOf && i !in Last(start).images
    ensures Gone(Last(t), Last(start).keyOf[i], i)
  {
    if t != start {
      GoneFrom(t.prev, start, i);
      StaysGone(Last(t.prev), t.event, i);
    }
  }

  /** An image id whose row is gone never gets a row again, and its key never gets an object again, in any
      continuation. */
  lemma GoneForGood(t: Trace, start: Trace, i: ImageId)
    requires Legal(t) && Legal(start) && Extends(t, start) && i in Last(start).keyOf && i !in Last(start).images
    ensures Gone(Last(t), Last(start).keyOf[i], i) && Last(start).keyOf[i] !in Last(t).bucket
  {
    GoneFrom(t, start, i);
    EveryRun(t);
  }

  ghost predicate Gone(s: State, k: ObjectKey, i: ImageId) { i in s.keyOf && s.keyOf[i] == k && i !in s.images }

  lemma StaysGone(s: State, e: Event, i: ImageId)
    requires Enabled(s, e) && i in s.keyOf && i !in s.images
    ensures Gone(Next(s, e), s.keyOf[i], i)
  {
    match e
    case Env(_) =>
    case Upload(a, step) => StaysGoneAtUpload(s, a, step, i);
    case Use(a, step) => StaysGoneAtUse(s, a, step, i);
    case Sweep(_, _) =>
    case Crash(_) =>
  }

  lemma StaysGoneAtUpload(s: State, a: ActorId, e: UploadStep, i: ImageId)
    requires UploadEnabled(s, a, e) && i in s.keyOf && i !in s.images
    ensures Gone(UploadNext(s, a, e), s.keyOf[i], i)
  {
  }

  lemma StaysGoneAtUse(s: State, a: ActorId, e: UseStep, i: ImageId)
    requires UseEnabled(s, a, e) && i in s.keyOf && i !in s.images
    ensures Gone(UseNext(s, a, e), s.keyOf[i], i)
  {
  }

  /** The passes that test references never take one away. */
  lemma SweepSparesReferences(t: Trace, a: ActorId)
    requires Legal(t) && SweepEnabled(Last(t), a, CommitSweep) && !Last(t).actors[a].pass.ExpiredSignups?
    ensures SweepNext(Last(t), a, CommitSweep).refs == Last(t).refs
  {
    EveryRun(t);
    assert TxnOk(Last(t), Last(t).actors[a]);
    NothingCut(Last(t), a);
  }

  lemma NothingCut(s: State, a: ActorId)
    requires SweepEnabled(s, a, CommitSweep) && TxnOk(s, s.actors[a]) && !s.actors[a].pass.ExpiredSignups?
    ensures SweepNext(s, a, CommitSweep).refs == s.refs
  {
    forall r | r in s.refs ensures r.image !in s.actors[a].gone { }
  }

  /** A row that a pass may take and nobody has locked can be taken, object first, and nothing else goes. */
  lemma EligibleRowsCanBeSwept(t: Trace, pass: Pass, i: ImageId, a: ActorId) returns (t': Trace)
    requires Legal(t) && Eligible(Last(t), pass, i) && a !in Last(t).actors && Free(Last(t), a, i, Update)
    ensures Legal(t') && Last(t').images == Last(t).images - {i} && Last(t').actors == Last(t).actors
    ensures Last(t').bucket == Last(t).bucket - {Last(t).images[i].key}
    ensures Last(t').refs == set r | r in Last(t).refs && r.image != i
  {
    SweepsObject(Last(t), pass, i, a);
    var t1 := Swept(t, a, SweepFetch(pass, {i}));
    var t2 := Swept(t1, a, StorageDelete(i, Deleted));
    SweepsRow(Last(t), Last(t2), pass, i, a);
    var t3 := Swept(t2, a, DeleteRows);
    t' := Swept(t3, a, CommitSweep);
  }

  /** A marked row past its grace period that nobody has locked can be reclaimed, object first. */
  lemma MarkedRowsCanBeReclaimed(t: Trace, i: ImageId, a: ActorId) returns (t': Trace)
    requires Legal(t) && Marked(Last(t), i) && a !in Last(t).actors && Free(Last(t), a, i, Update)
    requires Last(t).images[i].deletedAt.value < Last(t).now - GRACE_SECONDS
    ensures Legal(t') && Last(t').images == Last(t).images - {i} && Last(t').refs == Last(t).refs
    ensures Last(t').bucket == Last(t).bucket - {Last(t).images[i].key} && Last(t').actors == Last(t).actors
  {
    ReferencedImagesAreLive(t);
    t' := EligibleRowsCanBeSwept(t, Reclaimable, i, a);
  }

  lemma Swept(t: Trace, a: ActorId, e: SweepStep) returns (t': Trace)
    requires Legal(t) && SweepEnabled(Last(t), a, e)
    ensures Legal(t') && Last(t') == SweepNext(Last(t), a, e)
  {
    t' := Then(t, Sweep(a, e));
  }

  /** A page of the one row, with its object deleted. */
  lemma SweepsObject(s: State, pass: Pass, i: ImageId, a: ActorId)
    requires a !in s.actors && Eligible(s, pass, i) && Free(s, a, i, Update)
    ensures SweepEnabled(s, a, SweepFetch(pass, {i}))
    ensures var s1 := SweepNext(s, a, SweepFetch(pass, {i}));
            SweepEnabled(s1, a, StorageDelete(i, Deleted)) &&
            SweepNext(s1, a, StorageDelete(i, Deleted)) == Go(Erased(s, i), a, Sweeping(pass, {i}, {}, {i}))
  {
    assert {i} - {i} == {} && {} + {i} == {i};
  }

  lemma SweepsRow(s: State, s2: State, pass: Pass, i: ImageId, a: ActorId)
    requires i in s.images && a !in s.actors && s2 == Go(Erased(s, i), a, Sweeping(pass, {i}, {}, {i}))
    ensures SweepEnabled(s2, a, DeleteRows)
    ensures var s3 := SweepNext(s2, a, DeleteRows);
            SweepEnabled(s3, a, CommitSweep) &&
            var s4 := SweepNext(s3, a, CommitSweep);
            && s4.images == s.images - {i} && s4.refs == (set r | r in s.refs && r.image != i)
            && s4.bucket == s.bucket - {s.images[i].key} && s4.actors == s.actors
  {
    var s3 := SweepNext(s2, a, DeleteRows);
    assert s3.actors - {a} == s.actors;
  }
}
