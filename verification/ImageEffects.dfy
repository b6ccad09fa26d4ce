/** What uploads, attachments, sign-ups, soft deletions and sweeps leave behind, whatever others do meanwhile. */
module ImageEffects {
  import opened Options
  import opened Images
  import opened ImageInvariant
  import opened ImageSafety

  /** Actor `a` has had an open transaction in every state from `begin` to `t`. */
  ghost predicate Open(t: Trace, begin: Trace, a: ActorId)
    requires Legal(t)
  {
    a in Last(t).actors && (t == begin || (t.Then? && Open(t.prev, begin, a)))
  }

  ghost predicate By(e: Event, a: ActorId) { !e.Env? && e.actor == a }

  ghost predicate Keeps(s: State, s': State, a: ActorId)
    requires a in s.actors
  {
    a in s'.actors && s'.actors[a] == s.actors[a]
  }

  lemma Bystander(s: State, e: Event, a: ActorId)
    requires Enabled(s, e) && !By(e, a) && a in s.actors
    ensures Keeps(s, Next(s, e), a)
  {
    match e
    case Env(_) =>
    case Upload(b, step) => BystanderAtUpload(s, b, step, a);
    case Use(b, step) => BystanderAtUse(s, b, step, a);
    case Sweep(b, step) => BystanderAtSweep(s, b, step, a);
    case Crash(_) =>
  }

  lemma BystanderAtUpload(s: State, b: ActorId, e: UploadStep, a: ActorId)
    requires UploadEnabled(s, b, e) && a != b && a in s.actors
    ensures Keeps(s, UploadNext(s, b, e), a)
  {
  }

  lemma BystanderAtUse(s: State, b: ActorId, e: UseStep, a: ActorId)
    requires UseEnabled(s, b, e) && a != b && a in s.actors
    ensures Keeps(s, UseNext(s, b, e), a)
  {
  }

  lemma BystanderAtSweep(s: State, b: ActorId, e: SweepStep, a: ActorId)
    requires SweepEnabled(s, b, e) && a != b && a in s.actors
    ensures Keeps(s, SweepNext(s, b, e), a)
  {
  }

  // ---- attaching -------------------------------------------------------------------------------------------

  ghost predicate Attaches(t: Txn, holder: Holder, ids: set<ImageId>, dropped: set<ImageId>) {
    (t.Checked? || (t.Attached? && t.dropped == dropped)) && t.holder == holder && t.ids == ids
  }

  /** What the attachment of `a` has dropped since `begin`. */
  ghost function Dropped(t: Trace, begin: Trace, a: ActorId): set<ImageId> {
    if t == begin || t.Start? then {}
    else if t.event.Use? && t.event.actor == a && t.event.use.InsertRefs? then t.event.use.dropped
    else Dropped(t.prev, begin, a)
  }

  lemma AttachGoesOn(s: State, e: Event, a: ActorId, holder: Holder, ids: set<ImageId>, dropped: set<ImageId>)
    requires Enabled(s, e) && By(e, a) && a in s.actors && Attaches(s.actors[a], holder, ids, dropped)
    requires a in Next(s, e).actors
    ensures e.Use? && e.use.InsertRefs? && Attaches(Next(s, e).actors[a], holder, ids, e.use.dropped)
  {
  }

  lemma {:induction false} StaysAttach(t: Trace, begin: Trace, a: ActorId, holder: Holder, ids: set<ImageId>)
    requires Legal(t) && Legal(begin) && begin.Then? && Open(t, begin, a)
    requires begin.event == Use(a, BeginAttach(holder, ids))
    ensures Attaches(Last(t).actors[a], holder, ids, Dropped(t, begin, a))
  {
    if t != begin {
      StaysAttach(t.prev, begin, a, holder, ids);
      if By(t.event, a) {
        AttachGoesOn(Last(t.prev), t.event, a, holder, ids, Dropped(t.prev, begin, a));
      } else {
        Bystander(Last(t.prev), t.event, a);
      }
    }
  }

  /** An attachment goes ahead if and only if every image is live. */
  lemma AttachBegins(s: State, a: ActorId, holder: Holder, ids: set<ImageId>)
    requires UseEnabled(s, a, BeginAttach(holder, ids))
    ensures a in UseNext(s, a, BeginAttach(holder, ids)).actors <==> forall i :: i in ids ==> Live(s, i)
  {
  }

  /** What a commit makes of the references: those of `ids` added for the holder, those dropped before gone. */
  ghost predicate Linked(s: State, s': State, holder: Holder, ids: set<ImageId>, dropped: set<ImageId>) {
    && (forall i :: i in ids ==> Ref(holder, i) in s'.refs)
    && (forall i :: i !in ids ==> (Ref(holder, i) in s'.refs <==> Ref(holder, i) in s.refs && i !in dropped))
    && (forall r: Ref :: r.holder != holder ==> (r in s'.refs <==> r in s.refs))
  }

  lemma AttachCommit(s: State, a: ActorId)
    requires UseEnabled(s, a, CommitAttach)
    ensures Linked(s, UseNext(s, a, CommitAttach), s.actors[a].holder, s.actors[a].ids, s.actors[a].dropped)
  {
  }

  /** An attachment that commits leaves every one of its references to a live image, and other holders' as they were. */
  lemma AttachTakesEffect(t: Trace, begin: Trace, a: ActorId, holder: Holder, ids: set<ImageId>)
    requires Legal(t) && Legal(begin) && begin.Then? && Open(t, begin, a)
    requires begin.event == Use(a, BeginAttach(holder, ids)) && UseEnabled(Last(t), a, CommitAttach)
    ensures var s, s' := Last(t), UseNext(Last(t), a, CommitAttach);
            && Linked(s, s', holder, ids, Dropped(t, begin, a)) && (forall i :: i in ids ==> Live(s', i))
            && s'.images == s.images && s'.bucket == s.bucket
  {
    StaysAttach(t, begin, a, holder, ids);
    EveryRun(t);
    assert TxnOk(Last(t), Last(t).actors[a]);
    AttachCommit(Last(t), a);
  }

  // ---- signing up with an image --------------------------------------------------------------------------------

  ghost predicate SignsUp(t: Txn, u: UserId, i: ImageId) { (t.SignedUp? || t.Claimed?) && t.user == u && t.id == i }

  lemma SignupGoesOn(s: State, e: Event, a: ActorId, u: UserId, i: ImageId)
    requires Enabled(s, e) && By(e, a) && a in s.actors && SignsUp(s.actors[a], u, i) && a in Next(s, e).actors
    ensures SignsUp(Next(s, e).actors[a], u, i)
  {
  }

  lemma {:induction false} StaysSignup(t: Trace, begin: Trace, a: ActorId, u: UserId, i: ImageId)
    requires Legal(t) && Legal(begin) && begin.Then? && Open(t, begin, a) && begin.event == Use(a, BeginSignup(u, i))
    ensures SignsUp(Last(t).actors[a], u, i)
  {
    if t != begin {
      StaysSignup(t.prev, begin, a, u, i);
      if By(t.event, a) {
        SignupGoesOn(Last(t.prev), t.event, a, u, i);
      } else {
        Bystander(Last(t.prev), t.event, a);
      }
    }
  }

  /** A sign-up claims its image if and only if it is live and nobody's, and otherwise ends there. */
  lemma ClaimDecides(t: Trace, begin: Trace, a: ActorId, u: UserId, i: ImageId)
    requires Legal(t) && Legal(begin) && begin.Then? && Open(t, begin, a)
    requires begin.event == Use(a, BeginSignup(u, i)) && UseEnabled(Last(t), a, Claim)
    ensures a in UseNext(Last(t), a, Claim).actors <==> Claimable(Last(t), i)
  {
    StaysSignup(t, begin, a, u, i);
  }

  /** A sign-up that commits makes the image, nobody's until then, the user's own and their profile picture. */
  lemma SignupTakesEffect(t: Trace, begin: Trace, a: ActorId, u: UserId, i: ImageId)
    requires Legal(t) && Legal(begin) && begin.Then? && Open(t, begin, a)
    requires begin.event == Use(a, BeginSignup(u, i)) && UseEnabled(Last(t), a, CommitSignup)
    ensures var s, s' := Last(t), UseNext(Last(t), a, CommitSignup);
            && Claimable(s, i) && Live(s', i) && s'.refs == s.refs + {Ref(UserProfile(u), i)}
            && s'.images == s.images[i := s.images[i].(uploader := Some(u))] && s'.bucket == s.bucket
  {
    StaysSignup(t, begin, a, u, i);
    EveryRun(t);
    assert TxnOk(Last(t), Last(t).actors[a]);
  }

  // ---- soft deletion ---------------------------------------------------------------------------------------------

  ghost predicate Deletes(t: Txn, u: UserId, i: ImageId, at: int) {
    && (t.SoftDeleted? || t.Detached?) && t.user == u && t.id == i && t.at == at
    && (t.Detached? ==> forall r :: r in t.cut ==> r.image == i)
  }

  lemma DeletionGoesOn(s: State, e: Event, a: ActorId, u: UserId, i: ImageId, at: int)
    requires Enabled(s, e) && By(e, a) && a in s.actors && Deletes(s.actors[a], u, i, at) && a in Next(s, e).actors
    ensures Deletes(Next(s, e).actors[a], u, i, at)
  {
  }

  lemma {:induction false} StaysDeletion(t: Trace, begin: Trace, a: ActorId, u: UserId, i: ImageId)
    requires Legal(t) && Legal(begin) && begin.Then? && Open(t, begin, a)
    requires begin.event == Use(a, BeginSoftDelete(u, i))
    ensures Deletes(Last(t).actors[a], u, i, Last(begin.prev).now)
  {
    if t != begin {
      StaysDeletion(t.prev, begin, a, u, i);
      if By(t.event, a) {
        DeletionGoesOn(Last(t.prev), t.event, a, u, i, Last(begin.prev).now);
      } else {
        Bystander(Last(t.prev), t.event, a);
      }
    }
  }

  /** A soft deletion goes ahead if and only if the image is live and the user's own. */
  lemma SoftDeleteBegins(s: State, a: ActorId, u: UserId, i: ImageId)
    requires UseEnabled(s, a, BeginSoftDelete(u, i))
    ensures a in UseNext(s, a, BeginSoftDelete(u, i)).actors <==> DeletableBy(s, i, u)
  {
  }

  /** A soft deletion that commits marks the image with the time it began and leaves no reference to it. */
  lemma SoftDeleteTakesEffect(t: Trace, begin: Trace, a: ActorId, u: UserId, i: ImageId)
    requires Legal(t) && Legal(begin) && begin.Then? && Open(t, begin, a)
    requires begin.event == Use(a, BeginSoftDelete(u, i)) && UseEnabled(Last(t), a, CommitSoftDelete)
    ensures var s, s' := Last(t), UseNext(Last(t), a, CommitSoftDelete);
            && DeletableBy(s, i, u) && s'.refs == (set r | r in s.refs && r.image != i) && s'.bucket == s.bucket
            && s'.images == s.images[i := s.images[i].(deletedAt := Some(Last(begin.prev).now))]
  {
    StaysDeletion(t, begin, a, u, i);
    EveryRun(t);
    assert TxnOk(Last(t), Last(t).actors[a]);
  }

  // ---- sweeping --------------------------------------------------------------------------------------------------

  /** The images whose object actor `a` has deleted with success since `begin`, and those it has tried. */
  ghost function Erasures(t: Trace, begin: Trace, a: ActorId, tried: bool): set<ImageId> {
    if t == begin || t.Start? then {} else
      Erasures(t.prev, begin, a, tried) + if Erases(t.event, a, tried) then {t.event.sweep.id} else {}
  }

  ghost predicate Erases(e: Event, a: ActorId, tried: bool) {
    e.Sweep? && e.actor == a && e.sweep.StorageDelete? && (tried || e.sweep.outcome.Deleted?)
  }

  ghost predicate Sweeps(t: Txn, pass: Pass, ids: set<ImageId>, tried: set<ImageId>, erased: set<ImageId>) {
    match t
    case Sweeping(p, page, todo, gone) => p == pass && page == ids && todo == ids - tried && gone == erased
    case RowsDeleted(p, page, gone) => p == pass && page == ids && ids <= tried && gone == erased
    case _ => false
  }

  lemma SweepGoesOn(s: State, a: ActorId, e: SweepStep, pass: Pass, ids: set<ImageId>,
                    tried: set<ImageId>, erased: set<ImageId>)
    requires SweepEnabled(s, a, e) && a in s.actors && Sweeps(s.actors[a], pass, ids, tried, erased) && !e.CommitSweep?
    ensures e.StorageDelete? ==> Sweeps(SweepNext(s, a, e).actors[a], pass, ids, tried + {e.id}, WithErased(erased, e))
    ensures e.DeleteRows? ==> Sweeps(SweepNext(s, a, e).actors[a], pass, ids, tried, erased)
  {
    if e.StorageDelete? {
      assert ids - tried - {e.id} == ids - (tried + {e.id});
    } else {
      forall i | i in ids ensures i in tried { assert i !in ids - tried; }
    }
  }

  ghost function WithErased(erased: set<ImageId>, e: SweepStep): set<ImageId>
    requires e.StorageDelete?
  {
    if e.outcome.Deleted? then erased + {e.id} else erased
  }

  lemma OnlySweeps(s: State, e: Event, a: ActorId)
    requires Enabled(s, e) && By(e, a) && a in s.actors && (s.actors[a].Sweeping? || s.actors[a].RowsDeleted?)
    requires a in Next(s, e).actors
    ensures e.Sweep? && !e.sweep.CommitSweep? && !e.sweep.SweepFetch?
  {
  }

  lemma {:induction false} StaysSweep(t: Trace, begin: Trace, a: ActorId, pass: Pass, ids: set<ImageId>)
    requires Legal(t) && Legal(begin) && begin.Then? && Open(t, begin, a)
    requires begin.event == Sweep(a, SweepFetch(pass, ids))
    ensures Sweeps(Last(t).actors[a], pass, ids, Erasures(t, begin, a, true), Erasures(t, begin, a, false))
  {
    if t != begin {
      var s := Last(t.prev);
      StaysSweep(t.prev, begin, a, pass, ids);
      if By(t.event, a) {
        OnlySweeps(s, t.event, a);
        var tried, erased := Erasures(t.prev, begin, a, true), Erasures(t.prev, begin, a, false);
        SweepGoesOn(s, a, t.event.sweep, pass, ids, tried, erased);
      } else {
        Bystander(s, t.event, a);
      }
    }
  }

  /** A sweep that commits has tried every row of its page and removes exactly those whose object it deleted. */
  lemma SweepTakesEffect(t: Trace, begin: Trace, a: ActorId, pass: Pass, ids: set<ImageId>)
    requires Legal(t) && Legal(begin) && begin.Then? && Open(t, begin, a)
    requires begin.event == Sweep(a, SweepFetch(pass, ids)) && SweepEnabled(Last(t), a, CommitSweep)
    ensures var s, s', erased := Last(t), SweepNext(Last(t), a, CommitSweep), Erasures(t, begin, a, false);
            && ids <= Erasures(t, begin, a, true) && s'.images == s.images - erased && s'.bucket == s.bucket
            && s'.refs == (set r | r in s.refs && r.image !in erased)
            && (forall i :: i in erased && i in s.images ==> s.images[i].key !in s'.bucket)
  {
    StaysSweep(t, begin, a, pass, ids);
    EveryRun(t);
    assert TxnOk(Last(t), Last(t).actors[a]);
  }

  // ---- what a reference protects -----------------------------------------------------------------------------------

  /** The event is a step of the pass that does not test references. */
  ghost predicate Untested(s: State, e: Event) {
    e.Sweep? && e.actor in s.actors && match s.actors[e.actor]
                                       case Sweeping(pass, _, _, _) => pass.ExpiredSignups?
                                       case RowsDeleted(pass, _, _) => pass.ExpiredSignups?
                                       case _ => false
  }

  /** The image has its row, and its key has the object it had. */
  ghost predicate Kept(s: State, s': State, i: ImageId)
    requires i in s.images
  {
    var key := s.images[i].key;
    && i in s'.images && s'.images[i].key == key
    && (key in s'.bucket <==> key in s.bucket) && (key in s.bucket ==> s'.bucket[key] == s.bucket[key])
  }

  lemma KeptBySweep(s: State, b: ActorId, e: SweepStep, i: ImageId)
    requires SweepEnabled(s, b, e) && i in s.images && KeyIsOwn(s, i, s.images[i].key)
    requires b in s.actors ==> TxnOk(s, s.actors[b])
    requires !Unreferenced(s, i) && !Untested(s, Sweep(b, e))
    ensures Kept(s, SweepNext(s, b, e), i)
  {
  }

  lemma KeptByUpload(s: State, b: ActorId, e: UploadStep, i: ImageId)
    requires UploadEnabled(s, b, e) && Live(s, i) && KeyIsOwn(s, i, s.images[i].key) && i in s.keyOf
    requires s.keyOf[i] == s.images[i].key && (b in s.actors ==> TxnOk(s, s.actors[b]))
    ensures Kept(s, UploadNext(s, b, e), i)
  {
  }

  lemma KeptByUse(s: State, b: ActorId, e: UseStep, i: ImageId)
    requires UseEnabled(s, b, e) && i in s.images
    ensures Kept(s, UseNext(s, b, e), i)
  {
  }

  lemma KeptByEnv(s: State, e: EnvStep, i: ImageId)
    requires EnvEnabled(s, e) && i in s.images
    ensures Kept(s, EnvNext(s, e), i)
  {
  }

  /** What is known of a referenced image and of whoever acts. */
  ghost predicate Protected(s: State, e: Event, i: ImageId) {
    && Live(s, i) && !Unreferenced(s, i) && KeyIsOwn(s, i, s.images[i].key) && i in s.keyOf
    && s.keyOf[i] == s.images[i].key && (!e.Env? && e.actor in s.actors ==> TxnOk(s, s.actors[e.actor]))
  }

  lemma KeptByEvent(s: State, e: Event, i: ImageId)
    requires Enabled(s, e) && Protected(s, e, i) && !Untested(s, e)
    ensures Kept(s, Next(s, e), i)
  {
    match e
    case Env(step) => KeptByEnv(s, step, i);
    case Upload(b, step) => KeptByUpload(s, b, step, i);
    case Use(b, step) => KeptByUse(s, b, step, i);
    case Sweep(b, step) => KeptBySweep(s, b, step, i);
    case Crash(_) =>
  }

  lemma ReferenceProtects(t: Trace, e: Event, r: Ref)
    requires Legal(t) && r in Last(t).refs
    ensures Protected(Last(t), e, r.image)
  {
    EveryRun(t);
    assert Live(Last(t), r.image);
    KeysAreOwn(Last(t), r.image);
  }

  /** The reference has stood in every state from `start` to `t`, and the pass that tests none did nothing. */
  ghost predicate Stands(t: Trace, start: Trace, r: Ref)
    requires Legal(t)
  {
    && r in Last(t).refs
    && (t == start || (t.Then? && Stands(t.prev, start, r) && !Untested(Last(t.prev), t.event)))
  }

  /** While a reference stands, no upload, deletion or pass that tests references takes the image or its object. */
  lemma {:induction false} ReferencedImageIsKept(t: Trace, start: Trace, r: Ref)
    requires Legal(t) && Legal(start) && Stands(t, start, r)
    ensures Live(Last(start), r.image) && Live(Last(t), r.image) && Kept(Last(start), Last(t), r.image)
  {
    EveryRun(t);
    assert Live(Last(t), r.image);
    if t != start {
      ReferencedImageIsKept(t.prev, start, r);
      ReferenceProtects(t.prev, t.event, r);
      KeptByEvent(Last(t.prev), t.event, r.image);
    }
  }

  // ---- uploading ---------------------------------------------------------------------------------------------------

  /** The upload asked for by a Head of `obj` for `purpose`, wherever it has got to. */
  ghost predicate Uploads(t: Txn, obj: Object, purpose: Purpose) {
    match t
    case Validated(_, o, p, _) => o == obj && p == purpose
    case Reserved(_, key, _, o) => o == obj && key.purpose == purpose
    case Locked(_, key, _, o) => o == obj && key.purpose == purpose
    case Promoted(_, key, o, _) => o == obj && key.purpose == purpose
    case Confirmed(_, key, o) => o == obj && key.purpose == purpose
    case _ => false
  }

  ghost predicate UploadsStill(s: State, a: ActorId, obj: Object, purpose: Purpose) {
    a in s.actors ==> Uploads(s.actors[a], obj, purpose)
  }

  lemma EarlyUpload(s: State, a: ActorId, e: UploadStep, obj: Object, purpose: Purpose)
    requires UploadEnabled(s, a, e) && a in s.actors && Uploads(s.actors[a], obj, purpose)
    requires e.Reserve? || e.LockReserved? || e.Promote?
    ensures UploadsStill(UploadNext(s, a, e), a, obj, purpose)
  {
  }

  lemma LateUpload(s: State, a: ActorId, e: UploadStep, obj: Object, purpose: Purpose)
    requires UploadEnabled(s, a, e) && a in s.actors && Uploads(s.actors[a], obj, purpose)
    requires e.IssueToken? || e.Confirm? || e.CommitUpload?
    ensures UploadsStill(UploadNext(s, a, e), a, obj, purpose)
  {
  }

  lemma UploadGoesOn(s: State, a: ActorId, e: UploadStep, obj: Object, purpose: Purpose)
    requires UploadEnabled(s, a, e) && a in s.actors && Uploads(s.actors[a], obj, purpose)
    ensures UploadsStill(UploadNext(s, a, e), a, obj, purpose)
  {
    if e.Reserve? || e.LockReserved? || e.Promote? {
      EarlyUpload(s, a, e, obj, purpose);
    } else {
      LateUpload(s, a, e, obj, purpose);
    }
  }

  lemma OnlyUploads(s: State, e: Event, a: ActorId, obj: Object, purpose: Purpose)
    requires Enabled(s, e) && By(e, a) && a in s.actors && Uploads(s.actors[a], obj, purpose) && a in Next(s, e).actors
    ensures e.Upload?
  {
  }

  lemma {:induction false} StaysUpload(t: Trace, begin: Trace, a: ActorId, head: UploadStep)
    requires Legal(t) && Legal(begin) && begin.Then? && Open(t, begin, a)
    requires head.Head? && begin.event == Upload(a, head)
    ensures head.pend in Last(begin.prev).pending
    ensures Uploads(Last(t).actors[a], Last(begin.prev).pending[head.pend], head.purpose)
    ensures head.expected.Some? ==> Last(begin.prev).pending[head.pend].size == head.expected.value
  {
    if t != begin {
      StaysUpload(t.prev, begin, a, head);
      var s, obj := Last(t.prev), Last(begin.prev).pending[head.pend];
      if By(t.event, a) {
        OnlyUploads(s, t.event, a, obj, head.purpose);
        UploadGoesOn(s, a, t.event.up, obj, head.purpose);
      } else {
        Bystander(s, t.event, a);
      }
    }
  }

  /**
   * An upload that commits leaves a live row for exactly the object that was pending when it began,
   * of the size announced if one was, under a key of the purpose asked for.
   */
  lemma UploadTakesEffect(t: Trace, begin: Trace, a: ActorId, head: UploadStep)
    requires Legal(t) && Legal(begin) && begin.Then? && Open(t, begin, a)
    requires head.Head? && begin.event == Upload(a, head) && UploadEnabled(Last(t), a, CommitUpload)
    ensures head.pend in Last(begin.prev).pending
    ensures var s, s', obj := Last(t), UploadNext(Last(t), a, CommitUpload), Last(begin.prev).pending[head.pend];
            var id, key := s.actors[a].id, s.actors[a].key;
            && (head.expected.Some? ==> obj.size == head.expected.value) && key.purpose == head.purpose
            && Live(s', id) && Describes(s'.images[id], key, obj) && key in s'.bucket && s'.bucket[key] == obj
            && s'.images - {id} == s.images - {id} && s'.refs == s.refs
  {
    StaysUpload(t, begin, a, head);
    ConfirmedUploadIsWhole(t, a);
  }
}
