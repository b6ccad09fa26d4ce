/** That uploads, attachments, sign-ups and soft deletions can go through wherever no lock is in the way. */
module ImageProgress {
  import opened Options
  import opened Images
  import opened ImageInvariant
  import opened ImageSafety
  import opened ImageEffects

  lemma Uses(t: Trace, a: ActorId, e: UseStep) returns (t': Trace)
    requires Legal(t) && UseEnabled(Last(t), a, e)
    ensures Legal(t') && Last(t') == UseNext(Last(t), a, e)
  {
    t' := Then(t, Use(a, e));
  }

  lemma Inserts(t: Trace, a: ActorId, holder: Holder, ids: set<ImageId>) returns (t': Trace)
    requires Legal(t) && a !in Last(t).actors && forall i :: i in ids ==> Live(Last(t), i) && Free(Last(t), a, i, Share)
    ensures Legal(t') && Last(t') == Go(Last(t), a, Attached(holder, ids, {}))
  {
    var t1 := Uses(t, a, BeginAttach(holder, ids));
    assert Last(t1) == Go(Last(t), a, Checked(holder, ids));
    t' := Uses(t1, a, InsertRefs({}));
    assert Last(t').actors == Last(t).actors[a := Attached(holder, ids, {})];
  }

  lemma AttachCanSucceed(t: Trace, a: ActorId, holder: Holder, ids: set<ImageId>) returns (t': Trace)
    requires Legal(t) && a !in Last(t).actors && forall i :: i in ids ==> Live(Last(t), i) && Free(Last(t), a, i, Share)
    ensures Legal(t') && Linked(Last(t), Last(t'), holder, ids, {}) && Last(t').actors == Last(t).actors
    ensures Last(t').images == Last(t).images && Last(t').bucket == Last(t).bucket
  {
    var t1 := Inserts(t, a, holder, ids);
    AttachCommit(Last(t1), a);
    t' := Uses(t1, a, CommitAttach);
    assert Last(t1).actors - {a} == Last(t).actors;
  }

  lemma Claims(t: Trace, a: ActorId, u: UserId, i: ImageId) returns (t': Trace)
    requires Legal(t) && a !in Last(t).actors && Claimable(Last(t), i)
    requires Free(Last(t), a, i, KeyShare) && Free(Last(t), a, i, NoKeyUpdate)
    ensures Legal(t') && Last(t') == Go(Last(t), a, Claimed(u, i))
  {
    var t1 := Uses(t, a, BeginSignup(u, i));
    assert Last(t1) == Go(Last(t), a, SignedUp(u, i));
    t' := Uses(t1, a, Claim);
    assert Last(t').actors == Last(t).actors[a := Claimed(u, i)];
  }

  lemma SignupCanSucceed(t: Trace, a: ActorId, u: UserId, i: ImageId) returns (t': Trace)
    requires Legal(t) && a !in Last(t).actors && Claimable(Last(t), i)
    requires Free(Last(t), a, i, KeyShare) && Free(Last(t), a, i, NoKeyUpdate)
    ensures Legal(t') && Last(t').refs == Last(t).refs + {Ref(UserProfile(u), i)} && Last(t').actors == Last(t).actors
    ensures Last(t').images == Last(t).images[i := Last(t).images[i].(uploader := Some(u))]
  {
    var t1 := Claims(t, a, u, i);
    t' := Uses(t1, a, CommitSignup);
    assert Last(t1).actors - {a} == Last(t).actors;
  }

  lemma Detaches(t: Trace, a: ActorId, u: UserId, i: ImageId) returns (t': Trace)
    requires Legal(t) && a !in Last(t).actors && DeletableBy(Last(t), i, u) && Free(Last(t), a, i, NoKeyUpdate)
    ensures Legal(t')
    ensures Last(t') == Go(Last(t), a, Detached(u, i, Last(t).now, set r | r in Last(t).refs && r.image == i))
  {
    var s := Last(t);
    var t1 := Uses(t, a, BeginSoftDelete(u, i));
    assert Last(t1) == Go(s, a, SoftDeleted(u, i, s.now));
    t' := Uses(t1, a, DetachRefs);
    assert Last(t').actors == s.actors[a := Last(t').actors[a]];
  }

  lemma SoftDeleteCanSucceed(t: Trace, a: ActorId, u: UserId, i: ImageId) returns (t': Trace)
    requires Legal(t) && a !in Last(t).actors && DeletableBy(Last(t), i, u) && Free(Last(t), a, i, NoKeyUpdate)
    ensures Legal(t') && Marked(Last(t'), i) && Unreferenced(Last(t'), i) && Last(t').actors == Last(t).actors
  {
    var t1 := Detaches(t, a, u, i);
    t' := Uses(t1, a, CommitSoftDelete);
    assert Last(t1).actors - {a} == Last(t).actors;
  }

  // ---- uploads -----------------------------------------------------------------------------------------------

  lemma Loads(t: Trace, a: ActorId, e: UploadStep) returns (t': Trace)
    requires Legal(t) && UploadEnabled(Last(t), a, e)
    ensures Legal(t') && Last(t') == UploadNext(Last(t), a, e)
  {
    t' := Then(t, Upload(a, e));
  }

  /** Only rows that exist are locked. */
  lemma LockedRowsExist(s: State, t: Txn, i: ImageId)
    requires TxnOk(s, t) && Holds(t, i).Some?
    ensures i in s.images
  {
  }

  /** One upload: what it asks for, what it finds, and the id and key it is given. */
  datatype Case = Case(actor: ActorId, head: UploadStep, obj: Object, id: ImageId, key: ObjectKey, at: int)

  /** The upload can begin in `s`: the object is there and valid, and id and key are unused. */
  ghost predicate Fits(s: State, c: Case) {
    && c.head.Head? && UploadEnabled(s, c.actor, c.head) && c.at == s.now
    && c.head.pend in s.pending && s.pending[c.head.pend] == c.obj && ValidObject(c.obj)
    && (c.head.expected.None? || c.head.expected.value == c.obj.size)
    && c.id !in s.keyOf && c.key.purpose == c.head.purpose && forall j :: j in s.keyOf ==> s.keyOf[j] != c.key
  }

  ghost function ReservedRow(c: Case): Row
    requires c.head.Head?
  {
    Row(c.key, c.head.uploader, c.at, Some(c.at), c.obj.size, c.obj.contentType)
  }

  /** `s` with the row reserved and the upload in phase `t`. */
  ghost function WithReserved(s: State, c: Case, t: Txn): State
    requires c.head.Head?
  {
    Go(s.(images := s.images[c.id := ReservedRow(c)], keyOf := s.keyOf[c.id := c.key]), c.actor, t)
  }

  /** The same with the object promoted, and the token stored if one was. */
  ghost function WithPromoted(s: State, c: Case, t: Txn, tokened: bool): State
    requires c.head.Head?
  {
    WithReserved(s, c, t).(bucket := s.bucket[c.key := c.obj], pending := s.pending - {c.head.pend},
                           tokens := if tokened then s.tokens + {c.id} else s.tokens)
  }

  lemma Reserves(t: Trace, c: Case) returns (t': Trace)
    requires Legal(t) && Fits(Last(t), c)
    ensures Legal(t') && Last(t') == WithReserved(Last(t), c, Reserved(c.id, c.key, c.head.pend, c.obj))
  {
    var t1 := Loads(t, c.actor, c.head);
    assert Last(t1) == Go(Last(t), c.actor, Validated(c.head.pend, c.obj, c.head.purpose, c.head.uploader));
    t' := Loads(t1, c.actor, Reserve(c.id, c.key));
    assert Last(t').actors == Last(t).actors[c.actor := Reserved(c.id, c.key, c.head.pend, c.obj)];
  }

  lemma FreshRowIsFree(t: Trace, c: Case, s': State, phase: Txn)
    requires Legal(t) && Fits(Last(t), c) && s' == WithReserved(Last(t), c, phase)
    ensures Free(s', c.actor, c.id, Update)
  {
    EveryRun(t);
    forall b | b in s'.actors && b != c.actor ensures Holds(s'.actors[b], c.id).None? {
      assert TxnOk(Last(t), Last(t).actors[b]);
      if Holds(s'.actors[b], c.id).Some? {
        LockedRowsExist(Last(t), s'.actors[b], c.id);
        assert false;
      }
    }
  }

  lemma Locks(t: Trace, t1: Trace, c: Case) returns (t': Trace)
    requires Legal(t) && Fits(Last(t), c)
    requires Legal(t1) && Last(t1) == WithReserved(Last(t), c, Reserved(c.id, c.key, c.head.pend, c.obj))
    ensures Legal(t') && Last(t') == WithReserved(Last(t), c, Locked(c.id, c.key, c.head.pend, c.obj))
  {
    FreshRowIsFree(t, c, Last(t1), Reserved(c.id, c.key, c.head.pend, c.obj));
    t' := Loads(t1, c.actor, LockReserved);
    assert Last(t').actors == Last(t).actors[c.actor := Locked(c.id, c.key, c.head.pend, c.obj)];
  }

  lemma Promotes(t: Trace, t1: Trace, c: Case) returns (t': Trace)
    requires Legal(t) && Fits(Last(t), c)
    requires Legal(t1) && Last(t1) == WithReserved(Last(t), c, Locked(c.id, c.key, c.head.pend, c.obj))
    ensures Legal(t') && Last(t') == WithPromoted(Last(t), c, Promoted(c.id, c.key, c.obj, false), false)
  {
    t' := Loads(t1, c.actor, Promote(Copied));
    assert Last(t').actors == Last(t).actors[c.actor := Promoted(c.id, c.key, c.obj, false)];
  }

  /** A sign-up image gets its token before it is confirmed; the others need none. */
  lemma Confirms(t: Trace, t1: Trace, c: Case) returns (t': Trace)
    requires Legal(t) && Fits(Last(t), c)
    requires Legal(t1) && Last(t1) == WithPromoted(Last(t), c, Promoted(c.id, c.key, c.obj, false), false)
    ensures Legal(t') && Last(t') == WithPromoted(Last(t), c, Confirmed(c.id, c.key, c.obj), c.key.purpose.Signup?)
  {
    var t2 := t1;
    if c.key.purpose.Signup? {
      t2 := Loads(t1, c.actor, IssueToken);
      assert Last(t2).actors == Last(t).actors[c.actor := Promoted(c.id, c.key, c.obj, true)];
    }
    t' := Loads(t2, c.actor, Confirm);
    assert Last(t').actors == Last(t).actors[c.actor := Confirmed(c.id, c.key, c.obj)];
  }

  lemma Commits(t: Trace, t1: Trace, c: Case) returns (t': Trace)
    requires Legal(t) && Fits(Last(t), c)
    requires Legal(t1) && Last(t1) == WithPromoted(Last(t), c, Confirmed(c.id, c.key, c.obj), c.key.purpose.Signup?)
    ensures Legal(t') && Last(t').images == Last(t).images[c.id := ReservedRow(c).(deletedAt := None)]
    ensures Last(t').bucket == Last(t).bucket[c.key := c.obj] && Last(t').refs == Last(t).refs
    ensures Last(t').actors == Last(t).actors
  {
    t' := Loads(t1, c.actor, CommitUpload);
    assert Last(t1).actors - {c.actor} == Last(t).actors;
  }

  /** A valid object that is pending can be uploaded: one live row and its object are added and nothing else changes. */
  lemma UploadCanSucceed(t: Trace, c: Case) returns (t': Trace)
    requires Legal(t) && Fits(Last(t), c)
    ensures Legal(t') && Last(t').images == Last(t).images[c.id := ReservedRow(c).(deletedAt := None)]
    ensures Last(t').bucket == Last(t).bucket[c.key := c.obj] && Last(t').refs == Last(t).refs
    ensures Last(t').actors == Last(t).actors
  {
    var t1 := Reserves(t, c);
    var t2 := Locks(t, t1, c);
    var t3 := Promotes(t, t2, c);
    var t4 := Confirms(t, t3, c);
    t' := Commits(t, t4, c);
  }
}
