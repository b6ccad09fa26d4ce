/** The invariant of the image protocol and its preservation, one lemma per event. */
module ImageInvariant {
  import opened Options
  import opened Images

  ghost predicate Describes(row: Row, key: ObjectKey, obj: Object) {
    row.key == key && row.size == obj.size && row.contentType == obj.contentType
  }

  ghost predicate RowsOk(s: State) {
    && (forall i :: i in s.images ==> i in s.keyOf && s.images[i].key == s.keyOf[i])
    && (forall i, j :: i in s.keyOf && j in s.keyOf && s.keyOf[i] == s.keyOf[j] ==> i == j)
    && (forall i :: i in s.images && s.images[i].deletedAt.None? && s.images[i].key.purpose.Signup? ==> i in s.tokens)
  }

  ghost predicate ObjectsOk(s: State) {
    && (forall k :: k in s.bucket ==> k in s.keyOf.Values)
    && (forall i :: i in s.keyOf && s.keyOf[i] in s.bucket ==>
          i in s.images && ValidObject(s.bucket[s.keyOf[i]]) &&
          Describes(s.images[i], s.keyOf[i], s.bucket[s.keyOf[i]]))
  }

  ghost predicate RefsOk(s: State) { forall r :: r in s.refs ==> Live(s, r.image) }

  ghost predicate ContentsOk(s: State) {
    && (forall p :: p in s.pending ==> s.pending[p].etag in s.contents && s.contents[s.pending[p].etag] == s.pending[p])
    && (forall g :: g in s.contents ==> s.contents[g].etag == g)
  }

  ghost predicate Seen(s: State, obj: Object) {
    ValidObject(obj) && obj.etag in s.contents && s.contents[obj.etag] == obj
  }

  ghost predicate Owns(s: State, id: ImageId, key: ObjectKey) { id in s.keyOf && s.keyOf[id] == key }

  ghost predicate TxnOk(s: State, t: Txn) {
    match t
    case Validated(_, obj, _, _) => Seen(s, obj)
    case Reserved(id, key, _, obj) =>
      Seen(s, obj) && Owns(s, id, key) && key !in s.bucket && (id in s.images ==> Describes(s.images[id], key, obj))
    case Locked(id, key, _, obj) =>
      Seen(s, obj) && Owns(s, id, key) && key !in s.bucket && Marked(s, id) && Describes(s.images[id], key, obj)
    case Promoted(id, key, obj, tokened) =>
      && Seen(s, obj) && Owns(s, id, key) && key in s.bucket && s.bucket[key] == obj
      && Marked(s, id) && Describes(s.images[id], key, obj) && (tokened ==> id in s.tokens)
    case Confirmed(id, key, obj) =>
      && Seen(s, obj) && Owns(s, id, key) && key in s.bucket && s.bucket[key] == obj
      && Marked(s, id) && Describes(s.images[id], key, obj) && (key.purpose.Signup? ==> id in s.tokens)
    case Checked(_, ids) => forall i :: i in ids ==> Live(s, i)
    case Attached(_, ids, _) => forall i :: i in ids ==> Live(s, i)
    case SignedUp(_, id) => id in s.images
    case Claimed(_, id) => Claimable(s, id)
    case SoftDeleted(user, id, _) => DeletableBy(s, id, user)
    case Detached(user, id, _, cut) => DeletableBy(s, id, user) && forall r :: r in s.refs && r.image == id ==> r in cut
    case Sweeping(pass, ids, todo, gone) => todo <= ids && gone <= ids - todo && SweepOk(s, pass, ids, gone)
    case RowsDeleted(pass, ids, gone) => gone <= ids && SweepOk(s, pass, ids, gone)
  }

  ghost predicate SweepOk(s: State, pass: Pass, ids: set<ImageId>, gone: set<ImageId>) {
    && (forall i :: i in ids ==> i in s.images && (!pass.ExpiredSignups? ==> Unreferenced(s, i)))
    && (forall i :: i in gone && i in s.images ==> s.images[i].key !in s.bucket)
  }

  /** Two transactions hold no conflicting locks and upload no common image. */
  ghost predicate Apart(t: Txn, u: Txn) {
    && (forall i :: Holds(t, i).Some? ==> Compatible(u, i, Holds(t, i).value))
    && (UploadOf(t).Some? ==> UploadOf(u) != UploadOf(t))
  }

  ghost predicate TxnsOk(s: State) {
    && (forall a :: a in s.actors ==> TxnOk(s, s.actors[a]))
    && (forall a, b :: a in s.actors && b in s.actors && a != b ==> Apart(s.actors[a], s.actors[b]))
  }

  ghost predicate WorldOk(s: State) { RowsOk(s) && ObjectsOk(s) && RefsOk(s) && ContentsOk(s) }

  ghost predicate Inv(s: State) { WorldOk(s) && TxnsOk(s) }

  // ---- moving one transaction, the tables and the bucket unchanged ----------------------------

  lemma ApartSymmetric(t: Txn, u: Txn)
    requires Apart(t, u)
    ensures Apart(u, t)
  {
    forall i | Holds(u, i).Some? ensures Compatible(t, i, Holds(u, i).value) {
      if Holds(t, i).Some? { assert Compatible(u, i, Holds(t, i).value); }
    }
  }

  lemma Ended(s: State, a: ActorId)
    requires TxnsOk(s)
    ensures TxnsOk(End(s, a))
  {
    var s' := End(s, a);
    forall b | b in s'.actors ensures TxnOk(s', s'.actors[b]) { TxnReadsTables(s, s', s.actors[b]); }
  }

  lemma Moved(s: State, a: ActorId, t: Txn)
    requires TxnsOk(s) && TxnOk(s, t)
    requires forall b :: b in s.actors && b != a ==> Apart(t, s.actors[b])
    ensures TxnsOk(Go(s, a, t))
  {
    var s' := Go(s, a, t);
    forall b | b in s'.actors ensures TxnOk(s', s'.actors[b]) { TxnReadsTables(s, s', s'.actors[b]); }
    forall b, c | b in s'.actors && c in s'.actors && b != c ensures Apart(s'.actors[b], s'.actors[c]) {
      if c == a { ApartSymmetric(t, s.actors[b]); }
    }
  }

  lemma TxnReadsTables(s: State, s': State, t: Txn)
    requires TxnOk(s, t) && s' == s.(actors := s'.actors, now := s'.now)
    ensures TxnOk(s', t)
  {
    match t
    case _ =>
  }

  // ---- what a change of the tables or the bucket must leave to every other transaction --------

  ghost predicate Strong(t: Txn, i: ImageId) { Holds(t, i).Some? && !Holds(t, i).value.KeyShare? }

  ghost predicate Exclusive(t: Txn, i: ImageId) { Holds(t, i) == Some(NoKeyUpdate) || Holds(t, i) == Some(Update) }

  ghost predicate Grows(s: State, s': State) {
    && (forall i :: i in s.keyOf ==> i in s'.keyOf && s'.keyOf[i] == s.keyOf[i])
    && (forall g :: g in s.contents ==> g in s'.contents && s'.contents[g] == s.contents[g])
    && s.tokens <= s'.tokens
  }

  ghost predicate Calm(s: State, s': State, t: Txn) {
    && (forall i :: Holds(t, i).Some? && i in s.images ==> i in s'.images)
    && (forall i :: Strong(t, i) && i in s.images ==> i in s'.images && s'.images[i] == s.images[i])
    && (forall r :: r in s'.refs && r !in s.refs ==> !Exclusive(t, r.image))
    && (forall i :: Exclusive(t, i) && i in s.images && s.images[i].key in s'.bucket ==> s.images[i].key in s.bucket)
    && (UploadOf(t).Some? && UploadOf(t).value in s.keyOf ==> CalmUpload(s, s', UploadOf(t).value))
  }

  ghost predicate CalmUpload(s: State, s': State, id: ImageId)
    requires id in s.keyOf
  {
    var key := s.keyOf[id];
    && (key in s.bucket <==> key in s'.bucket)
    && (key in s.bucket ==> s'.bucket[key] == s.bucket[key])
    && (id in s'.images ==> id in s.images && s'.images[id].key == s.images[id].key &&
                            s'.images[id].size == s.images[id].size &&
                            s'.images[id].contentType == s.images[id].contentType)
  }

  lemma Undisturbed(s: State, s': State, t: Txn)
    requires TxnOk(s, t) && Grows(s, s') && Calm(s, s', t)
    ensures TxnOk(s', t)
  {
    match t
    case Reserved(id, _, _, _) => assert UploadOf(t) == Some(id);
    case Locked(id, _, _, _) => assert UploadOf(t) == Some(id) && Strong(t, id);
    case Promoted(id, _, _, _) => assert UploadOf(t) == Some(id) && Strong(t, id);
    case Confirmed(id, _, _) => assert UploadOf(t) == Some(id) && Strong(t, id);
    case Checked(_, ids) => forall i | i in ids ensures Live(s', i) { assert Strong(t, i); }
    case Attached(_, ids, _) => forall i | i in ids ensures Live(s', i) { assert Strong(t, i); }
    case SignedUp(_, id) => assert Holds(t, id).Some?;
    case Claimed(_, id) => assert Strong(t, id);
    case SoftDeleted(_, id, _) => assert Strong(t, id);
    case Detached(_, id, _, _) => assert Strong(t, id) && Exclusive(t, id);
    case Sweeping(pass, ids, _, gone) => UndisturbedSweep(s, s', t, pass, ids, gone);
    case RowsDeleted(pass, ids, gone) => UndisturbedSweep(s, s', t, pass, ids, gone);
    case Validated(_, _, _, _) =>
  }

  lemma UndisturbedSweep(s: State, s': State, t: Txn, pass: Pass, ids: set<ImageId>, gone: set<ImageId>)
    requires gone <= ids && SweepOk(s, pass, ids, gone) && Calm(s, s', t)
    requires forall i :: i in ids ==> Holds(t, i) == Some(Update)
    ensures SweepOk(s', pass, ids, gone)
  {
    forall i | i in ids ensures i in s'.images && s'.images[i] == s.images[i] && Exclusive(t, i) {
      assert Strong(t, i);
    }
  }

  /** A commit by `a`: its transaction ends and the others find their rows as they left them. */
  lemma OthersKeep(s: State, s': State, a: ActorId)
    requires TxnsOk(s) && Grows(s, s') && s'.actors == s.actors
    requires forall b :: b in s.actors && b != a ==> Calm(s, s', s.actors[b])
    ensures TxnsOk(End(s', a))
  {
    var s'' := End(s', a);
    forall b | b in s''.actors ensures TxnOk(s'', s''.actors[b]) {
      Undisturbed(s, s', s.actors[b]);
      TxnReadsTables(s', s'', s.actors[b]);
    }
  }

  lemma OthersKeepAndMoved(s: State, s': State, a: ActorId, t: Txn)
    requires TxnsOk(s) && Grows(s, s') && s'.actors == s.actors && TxnOk(s', t)
    requires forall b :: b in s.actors && b != a ==> Calm(s, s', s.actors[b]) && Apart(t, s.actors[b])
    ensures TxnsOk(Go(s', a, t))
  {
    var s'' := Go(s', a, t);
    forall b | b in s''.actors ensures TxnOk(s'', s''.actors[b]) {
      if b != a { Undisturbed(s, s', s.actors[b]); }
      TxnReadsTables(s', s'', s''.actors[b]);
    }
    forall b, c | b in s''.actors && c in s''.actors && b != c ensures Apart(s''.actors[b], s''.actors[c]) {
      if c == a { ApartSymmetric(t, s.actors[b]); }
    }
  }

  // ---- the events that only move a transaction -----------------------------------------------

  lemma SameTables(s: State, s': State)
    requires WorldOk(s) && s' == s.(actors := s'.actors, now := s'.now)
    ensures WorldOk(s')
  {
  }

  lemma KeepTick(s: State, seconds: nat)
    requires Inv(s) && EnvEnabled(s, Tick(seconds))
    ensures Inv(EnvNext(s, Tick(seconds)))
  {
    SameTables(s, EnvNext(s, Tick(seconds)));
    Ticked(s, EnvNext(s, Tick(seconds)));
  }

  lemma Ticked(s: State, s': State)
    requires TxnsOk(s) && s' == s.(now := s'.now)
    ensures TxnsOk(s')
  {
    forall b | b in s.actors ensures TxnOk(s', s.actors[b]) { TxnReadsTables(s, s', s.actors[b]); }
  }

  lemma KeepEnd(s: State, a: ActorId)
    requires Inv(s)
    ensures Inv(End(s, a))
  {
    SameTables(s, End(s, a));
    Ended(s, a);
  }

  lemma KeepGo(s: State, a: ActorId, t: Txn)
    requires Inv(s) && TxnOk(s, t)
    requires forall b :: b in s.actors && b != a ==> Apart(t, s.actors[b])
    ensures Inv(Go(s, a, t))
  {
    SameTables(s, Go(s, a, t));
    Moved(s, a, t);
  }

  ghost predicate SameLocks(t: Txn, u: Txn) {
    (forall i :: Holds(u, i) == Holds(t, i)) && UploadOf(u) == UploadOf(t)
  }

  lemma SameApart(t: Txn, t': Txn, u: Txn)
    requires SameLocks(t, t') && Apart(t, u)
    ensures Apart(t', u)
  {
    forall i | Holds(t', i).Some? ensures Compatible(u, i, Holds(t', i).value) { assert Holds(t, i) == Holds(t', i); }
  }

  /** A transaction that keeps its locks and its upload keeps its distance from the others. */
  lemma KeepAlong(s: State, a: ActorId, t: Txn)
    requires Inv(s) && a in s.actors && TxnOk(s, t) && SameLocks(s.actors[a], t)
    ensures Inv(Go(s, a, t))
  {
    forall b | b in s.actors && b != a ensures Apart(t, s.actors[b]) { SameApart(s.actors[a], t, s.actors[b]); }
    KeepGo(s, a, t);
  }

  lemma KeepConfirm(s: State, a: ActorId)
    requires Inv(s) && UploadEnabled(s, a, Confirm)
    ensures Inv(UploadNext(s, a, Confirm))
  {
    var t := s.actors[a];
    assert TxnOk(s, t);
    KeepAlong(s, a, Confirmed(t.id, t.key, t.obj));
  }

  lemma KeepInsertRefs(s: State, a: ActorId, dropped: set<ImageId>)
    requires Inv(s) && UseEnabled(s, a, InsertRefs(dropped))
    ensures Inv(UseNext(s, a, InsertRefs(dropped)))
  {
    assert TxnOk(s, s.actors[a]);
    KeepAlong(s, a, Attached(s.actors[a].holder, s.actors[a].ids, dropped));
  }

  lemma KeepDetachRefs(s: State, a: ActorId)
    requires Inv(s) && UseEnabled(s, a, DetachRefs)
    ensures Inv(UseNext(s, a, DetachRefs))
  {
    var t := s.actors[a];
    assert TxnOk(s, t);
    KeepAlong(s, a, Detached(t.user, t.id, t.at, set r | r in s.refs && r.image == t.id));
  }

  lemma KeepDeleteRows(s: State, a: ActorId)
    requires Inv(s) && SweepEnabled(s, a, DeleteRows)
    ensures Inv(SweepNext(s, a, DeleteRows))
  {
    var t := s.actors[a];
    assert TxnOk(s, t);
    KeepAlong(s, a, RowsDeleted(t.pass, t.ids, t.gone));
  }

  lemma KeepHead(s: State, a: ActorId, e: UploadStep)
    requires Inv(s) && UploadEnabled(s, a, e) && e.Head?
    ensures Inv(UploadNext(s, a, e))
  {
    if UploadNext(s, a, e) != s { KeepGo(s, a, Validated(e.pend, s.pending[e.pend], e.purpose, e.uploader)); }
  }

  /** A new transaction, or one upgrading its only lock, that takes one free lock on `i`. */
  lemma KeepOneLock(s: State, a: ActorId, t: Txn, i: ImageId, mode: LockMode)
    requires Inv(s) && TxnOk(s, t) && Free(s, a, i, mode)
    requires forall j :: Holds(t, j) == if j == i then Some(mode) else None
    requires UploadOf(t).Some? ==> a in s.actors && UploadOf(s.actors[a]) == UploadOf(t)
    ensures Inv(Go(s, a, t))
  {
    forall b | b in s.actors && b != a ensures Apart(t, s.actors[b]) {
      if a in s.actors { assert Apart(s.actors[a], s.actors[b]); }
    }
    KeepGo(s, a, t);
  }

  lemma KeepLockReserved(s: State, a: ActorId)
    requires Inv(s) && UploadEnabled(s, a, LockReserved)
    ensures Inv(UploadNext(s, a, LockReserved))
  {
    var t := s.actors[a];
    assert TxnOk(s, t);
    if Marked(s, t.id) { KeepOneLock(s, a, Locked(t.id, t.key, t.pend, t.obj), t.id, Update); } else { KeepEnd(s, a); }
  }

  lemma KeepBeginSignup(s: State, a: ActorId, u: UserId, i: ImageId)
    requires Inv(s) && UseEnabled(s, a, BeginSignup(u, i))
    ensures Inv(UseNext(s, a, BeginSignup(u, i)))
  {
    if i in s.images { KeepOneLock(s, a, SignedUp(u, i), i, KeyShare); }
  }

  lemma KeepClaim(s: State, a: ActorId)
    requires Inv(s) && UseEnabled(s, a, Claim)
    ensures Inv(UseNext(s, a, Claim))
  {
    var t := s.actors[a];
    if Claimable(s, t.id) { KeepOneLock(s, a, Claimed(t.user, t.id), t.id, NoKeyUpdate); } else { KeepEnd(s, a); }
  }

  lemma KeepBeginSoftDelete(s: State, a: ActorId, u: UserId, i: ImageId)
    requires Inv(s) && UseEnabled(s, a, BeginSoftDelete(u, i))
    ensures Inv(UseNext(s, a, BeginSoftDelete(u, i)))
  {
    if DeletableBy(s, i, u) { KeepOneLock(s, a, SoftDeleted(u, i, s.now), i, NoKeyUpdate); }
  }

  /** A new transaction that takes the same free lock on every row of `ids`. */
  lemma ManyLocks(s: State, a: ActorId, t: Txn, ids: set<ImageId>, mode: LockMode)
    requires a !in s.actors && UploadOf(t).None?
    requires forall i :: i in ids ==> Free(s, a, i, mode)
    requires forall i :: Holds(t, i) == if i in ids then Some(mode) else None
    ensures forall b :: b in s.actors && b != a ==> Apart(t, s.actors[b])
  {
    forall b | b in s.actors ensures Apart(t, s.actors[b]) {
      forall i | i in ids ensures Compatible(s.actors[b], i, mode) { assert Free(s, a, i, mode); }
    }
  }

  lemma KeepBeginAttach(s: State, a: ActorId, holder: Holder, ids: set<ImageId>)
    requires Inv(s) && UseEnabled(s, a, BeginAttach(holder, ids))
    ensures Inv(UseNext(s, a, BeginAttach(holder, ids)))
  {
    if forall i :: i in ids ==> Live(s, i) {
      ManyLocks(s, a, Checked(holder, ids), ids, Share);
      KeepGo(s, a, Checked(holder, ids));
    }
  }

  lemma KeepSweepFetch(s: State, a: ActorId, pass: Pass, ids: set<ImageId>)
    requires Inv(s) && SweepEnabled(s, a, SweepFetch(pass, ids))
    ensures Inv(SweepNext(s, a, SweepFetch(pass, ids)))
  {
    var t := Sweeping(pass, ids, ids, {});
    ManyLocks(s, a, t, ids, Update);
    assert TxnOk(s, t) by { forall i | i in ids ensures Eligible(s, pass, i) {} }
    KeepGo(s, a, t);
  }

  // ---- the events that change the tables or the bucket ----------------------------------------

  /** Row `i` is locked by `t`, so `u` holds no lock on it in conflict with that. */
  lemma LockedOut(t: Txn, u: Txn, i: ImageId)
    requires Apart(t, u) && Exclusive(t, i)
    ensures !Strong(u, i)
    ensures Holds(t, i) == Some(Update) ==> Holds(u, i).None?
  {
    assert Compatible(u, i, Holds(t, i).value);
  }

  // Uploads to and deletions from the pending prefix.

  lemma PendingWorld(s: State, s': State)
    requires WorldOk(s) && s' == s.(pending := s'.pending, contents := s'.contents) && ContentsOk(s')
    ensures WorldOk(s')
  {
  }

  lemma PendingTxns(s: State, s': State)
    requires TxnsOk(s) && s' == s.(pending := s'.pending, contents := s'.contents) && Grows(s, s')
    ensures TxnsOk(s')
  {
    forall b | b in s.actors ensures TxnOk(s', s.actors[b]) { Undisturbed(s, s', s.actors[b]); }
  }

  lemma KeepPending(s: State, s': State)
    requires Inv(s) && s' == s.(pending := s'.pending, contents := s'.contents) && ContentsOk(s') && Grows(s, s')
    ensures Inv(s')
  {
    PendingWorld(s, s');
    PendingTxns(s, s');
  }

  lemma KeepPutPending(s: State, pend: PendingKey, obj: Object)
    requires Inv(s) && EnvEnabled(s, PutPending(pend, obj))
    ensures Inv(EnvNext(s, PutPending(pend, obj)))
  {
    KeepPending(s, EnvNext(s, PutPending(pend, obj)));
  }

  lemma KeepExpirePending(s: State, pend: PendingKey)
    requires Inv(s) && EnvEnabled(s, ExpirePending(pend))
    ensures Inv(EnvNext(s, ExpirePending(pend)))
  {
    KeepPending(s, EnvNext(s, ExpirePending(pend)));
  }

  // Reserving an image.

  ghost function WithRow(s: State, id: ImageId, row: Row): State {
    s.(images := s.images[id := row], keyOf := s.keyOf[id := row.key])
  }

  lemma ReservedWorld(s: State, id: ImageId, row: Row)
    requires WorldOk(s) && id !in s.keyOf && (forall j :: j in s.keyOf ==> s.keyOf[j] != row.key) && row.deletedAt.Some?
    ensures WorldOk(WithRow(s, id, row)) && id !in s.images && row.key !in s.bucket
  {
    var s' := WithRow(s, id, row);
    forall k | k in s.keyOf.Values ensures k in s'.keyOf.Values {
      var i :| i in s.keyOf && s.keyOf[i] == k;
      assert s'.keyOf[i] == k;
    }
  }

  lemma ReservedCalm(s: State, id: ImageId, row: Row, u: Txn)
    requires id !in s.keyOf && id !in s.images && TxnOk(s, u)
    ensures Calm(s, WithRow(s, id, row), u) && UploadOf(u) != Some(id)
  {
  }

  lemma ReservedTxns(s: State, a: ActorId, id: ImageId, row: Row, t: Txn)
    requires TxnsOk(s) && id !in s.keyOf && id !in s.images && t.Reserved? && t.id == id
    requires TxnOk(WithRow(s, id, row), t)
    ensures TxnsOk(Go(WithRow(s, id, row), a, t))
  {
    forall b | b in s.actors ensures Calm(s, WithRow(s, id, row), s.actors[b]) && Apart(t, s.actors[b]) {
      ReservedCalm(s, id, row, s.actors[b]);
    }
    OthersKeepAndMoved(s, WithRow(s, id, row), a, t);
  }

  lemma KeepReserve(s: State, a: ActorId, id: ImageId, key: ObjectKey)
    requires Inv(s) && UploadEnabled(s, a, Reserve(id, key))
    ensures Inv(UploadNext(s, a, Reserve(id, key)))
  {
    var t := s.actors[a];
    assert TxnOk(s, t);
    var row := Row(key, t.uploader, s.now, Some(s.now), t.obj.size, t.obj.contentType);
    ReservedWorld(s, id, row);
    ReservedTxns(s, a, id, row, Reserved(id, key, t.pend, t.obj));
    SameTables(WithRow(s, id, row), UploadNext(s, a, Reserve(id, key)));
  }

  // Promoting an object.

  ghost function WithObject(s: State, t: Txn): State
    requires t.Locked?
  {
    s.(bucket := s.bucket[t.key := t.obj])
  }

  lemma PutWorld(s: State, t: Txn)
    requires WorldOk(s) && t.Locked? && TxnOk(s, t)
    ensures WorldOk(WithObject(s, t))
  {
    assert t.key in s.keyOf.Values by { assert s.keyOf[t.id] == t.key; }
  }

  /** No other image has the key. */
  ghost predicate KeyIsOwn(s: State, id: ImageId, key: ObjectKey) {
    && (forall i :: i in s.keyOf && i != id ==> s.keyOf[i] != key)
    && (forall i :: i in s.images && i != id ==> s.images[i].key != key)
  }

  lemma KeysAreOwn(s: State, id: ImageId)
    requires RowsOk(s) && id in s.keyOf
    ensures KeyIsOwn(s, id, s.keyOf[id])
  {
  }

  lemma PutCalm(s: State, t: Txn, u: Txn)
    requires t.Locked? && KeyIsOwn(s, t.id, t.key) && Apart(t, u)
    ensures Calm(s, WithObject(s, t), u)
  {
    LockedOut(t, u, t.id);
    forall i | Exclusive(u, i) && i in s.images ensures s.images[i].key != t.key { assert i != t.id; }
    assert UploadOf(u) != Some(t.id);
  }

  lemma PutTxns(s: State, a: ActorId)
    requires RowsOk(s) && TxnsOk(s) && a in s.actors && s.actors[a].Locked?
    ensures TxnsOk(End(WithObject(s, s.actors[a]), a))
    ensures TxnsOk(Go(WithObject(s, s.actors[a]), a, Promoted(s.actors[a].id, s.actors[a].key, s.actors[a].obj, false)))
  {
    var t := s.actors[a];
    assert TxnOk(s, t);
    var t' := Promoted(t.id, t.key, t.obj, false);
    KeysAreOwn(s, t.id);
    forall b | b in s.actors && b != a ensures Calm(s, WithObject(s, t), s.actors[b]) && Apart(t', s.actors[b]) {
      PutCalm(s, t, s.actors[b]);
      SameApart(t, t', s.actors[b]);
    }
    OthersKeep(s, WithObject(s, t), a);
    OthersKeepAndMoved(s, WithObject(s, t), a, t');
  }

  lemma KeepPut(s: State, a: ActorId)
    requires Inv(s) && a in s.actors && s.actors[a].Locked?
    ensures Inv(End(WithObject(s, s.actors[a]), a))
    ensures Inv(Go(WithObject(s, s.actors[a]), a, Promoted(s.actors[a].id, s.actors[a].key, s.actors[a].obj, false)))
  {
    PutWorld(s, s.actors[a]);
    SameTables(WithObject(s, s.actors[a]), End(WithObject(s, s.actors[a]), a));
    PutTxns(s, a);
  }

  lemma KeepPromote(s: State, a: ActorId, copy: CopyOutcome)
    requires Inv(s) && UploadEnabled(s, a, Promote(copy))
    ensures Inv(UploadNext(s, a, Promote(copy)))
  {
    var t := s.actors[a];
    if copy.CopyFailed? {
      KeepEnd(s, a);
    } else {
      assert s.pending[t.pend] == t.obj by { assert TxnOk(s, t); }
      KeepPut(s, a);
      if copy.Copied? {
        KeepPending(Go(WithObject(s, t), a, Promoted(t.id, t.key, t.obj, false)), UploadNext(s, a, Promote(copy)));
      }
    }
  }

  // Storing an upload token.

  lemma TokenTxns(s: State, s': State, a: ActorId)
    requires TxnsOk(s) && a in s.actors && s.actors[a].Promoted? && s' == s.(tokens := s.tokens + {s.actors[a].id})
    ensures TxnsOk(Go(s', a, s.actors[a].(tokened := true)))
  {
    var t := s.actors[a];
    assert TxnOk(s, t);
    forall b | b in s.actors && b != a ensures Calm(s, s', s.actors[b]) && Apart(t.(tokened := true), s.actors[b]) {
      SameApart(t, t.(tokened := true), s.actors[b]);
    }
    OthersKeepAndMoved(s, s', a, t.(tokened := true));
  }

  lemma TokenWorld(s: State, s': State)
    requires WorldOk(s) && s.tokens <= s'.tokens && s' == s.(tokens := s'.tokens, actors := s'.actors)
    ensures WorldOk(s')
  {
  }

  lemma KeepIssueToken(s: State, a: ActorId)
    requires Inv(s) && UploadEnabled(s, a, IssueToken)
    ensures Inv(UploadNext(s, a, IssueToken))
  {
    TokenWorld(s, UploadNext(s, a, IssueToken));
    TokenTxns(s, s.(tokens := s.tokens + {s.actors[a].id}), a);
  }

  // Committing one row.

  ghost predicate SameObject(row: Row, row': Row) {
    row' == row.(uploader := row'.uploader, deletedAt := row'.deletedAt)
  }

  ghost function Commit(s: State, i: ImageId, row: Row, refs: set<Ref>): State {
    s.(images := s.images[i := row], refs := refs)
  }

  lemma RowCalm(s: State, i: ImageId, row: Row, refs: set<Ref>, t: Txn, u: Txn)
    requires i in s.images && SameObject(s.images[i], row) && Apart(t, u) && Exclusive(t, i)
    requires forall r :: r in refs && r !in s.refs ==> r.image == i
    ensures Calm(s, Commit(s, i, row, refs), u)
  {
    LockedOut(t, u, i);
  }

  lemma RowWorld(s: State, i: ImageId, row: Row, refs: set<Ref>)
    requires WorldOk(s) && i in s.images && SameObject(s.images[i], row)
    requires row.deletedAt.None? && row.key.purpose.Signup? ==> i in s.tokens
    requires RefsOk(Commit(s, i, row, refs))
    ensures WorldOk(Commit(s, i, row, refs))
  {
  }

  lemma RowTxns(s: State, a: ActorId, i: ImageId, row: Row, refs: set<Ref>)
    requires TxnsOk(s) && a in s.actors && Exclusive(s.actors[a], i) && i in s.images && SameObject(s.images[i], row)
    requires forall r :: r in refs && r !in s.refs ==> r.image == i
    ensures TxnsOk(End(Commit(s, i, row, refs), a))
  {
    forall b | b in s.actors && b != a ensures Calm(s, Commit(s, i, row, refs), s.actors[b]) {
      RowCalm(s, i, row, refs, s.actors[a], s.actors[b]);
    }
    OthersKeep(s, Commit(s, i, row, refs), a);
  }

  lemma KeepCommitRow(s: State, a: ActorId, i: ImageId, row: Row, refs: set<Ref>)
    requires Inv(s) && a in s.actors && Exclusive(s.actors[a], i) && i in s.images && SameObject(s.images[i], row)
    requires row.deletedAt.None? && row.key.purpose.Signup? ==> i in s.tokens
    requires forall r :: r in refs && r !in s.refs ==> r.image == i
    requires RefsOk(Commit(s, i, row, refs))
    ensures Inv(End(Commit(s, i, row, refs), a))
  {
    RowWorld(s, i, row, refs);
    SameTables(Commit(s, i, row, refs), End(Commit(s, i, row, refs), a));
    RowTxns(s, a, i, row, refs);
  }

  lemma KeepCommitUpload(s: State, a: ActorId)
    requires Inv(s) && UploadEnabled(s, a, CommitUpload)
    ensures Inv(UploadNext(s, a, CommitUpload))
  {
    var t := s.actors[a];
    assert TxnOk(s, t);
    var row := s.images[t.id].(deletedAt := None, size := t.obj.size, contentType := t.obj.contentType);
    KeepCommitRow(s, a, t.id, row, s.refs);
  }

  lemma KeepCommitSignup(s: State, a: ActorId)
    requires Inv(s) && UseEnabled(s, a, CommitSignup)
    ensures Inv(UseNext(s, a, CommitSignup))
  {
    var t := s.actors[a];
    assert TxnOk(s, t);
    KeepCommitRow(s, a, t.id, s.images[t.id].(uploader := Some(t.user)), s.refs + {Ref(UserProfile(t.user), t.id)});
  }

  lemma KeepCommitSoftDelete(s: State, a: ActorId)
    requires Inv(s) && UseEnabled(s, a, CommitSoftDelete)
    ensures Inv(UseNext(s, a, CommitSoftDelete))
  {
    var t := s.actors[a];
    assert TxnOk(s, t);
    KeepCommitRow(s, a, t.id, s.images[t.id].(deletedAt := Some(t.at)), s.refs - t.cut);
  }

  // Attaching and dropping references.

  lemma AttachCalm(s: State, refs: set<Ref>, t: Txn, u: Txn)
    requires t.Attached? && Apart(t, u)
    requires forall r :: r in refs && r !in s.refs ==> r.image in t.ids
    ensures Calm(s, s.(refs := refs), u)
  {
    forall i | i in t.ids ensures !Exclusive(u, i) {
      assert Holds(t, i) == Some(Share);
      assert Compatible(u, i, Share);
    }
  }

  lemma AttachTxns(s: State, a: ActorId, refs: set<Ref>)
    requires TxnsOk(s) && a in s.actors && s.actors[a].Attached?
    requires forall r :: r in refs && r !in s.refs ==> r.image in s.actors[a].ids
    ensures TxnsOk(End(s.(refs := refs), a))
  {
    forall b | b in s.actors && b != a ensures Calm(s, s.(refs := refs), s.actors[b]) {
      AttachCalm(s, refs, s.actors[a], s.actors[b]);
    }
    OthersKeep(s, s.(refs := refs), a);
  }

  lemma RefsWorld(s: State, s': State)
    requires WorldOk(s) && s' == s.(refs := s'.refs, actors := s'.actors)
    requires forall r :: r in s'.refs && r !in s.refs ==> Live(s, r.image)
    ensures WorldOk(s')
  {
  }

  lemma KeepCommitAttach(s: State, a: ActorId)
    requires Inv(s) && UseEnabled(s, a, CommitAttach)
    ensures Inv(UseNext(s, a, CommitAttach))
  {
    assert TxnOk(s, s.actors[a]);
    RefsWorld(s, UseNext(s, a, CommitAttach));
    AttachTxns(s, a, UseNext(s, a, CommitAttach).refs);
  }

  lemma DroppedTxns(s: State, s': State)
    requires TxnsOk(s) && s' == s.(refs := s'.refs) && s'.refs <= s.refs
    ensures TxnsOk(s')
  {
    forall b | b in s.actors ensures TxnOk(s', s.actors[b]) { Undisturbed(s, s', s.actors[b]); }
  }

  lemma KeepDropRefs(s: State, holder: Holder, dropped: set<ImageId>)
    requires Inv(s) && EnvEnabled(s, DropRefs(holder, dropped))
    ensures Inv(EnvNext(s, DropRefs(holder, dropped)))
  {
    RefsWorld(s, EnvNext(s, DropRefs(holder, dropped)));
    DroppedTxns(s, EnvNext(s, DropRefs(holder, dropped)));
  }

  // Sweeping.

  ghost function Erased(s: State, i: ImageId): State
    requires i in s.images
  {
    s.(bucket := s.bucket - {s.images[i].key})
  }

  lemma ErasedWorld(s: State, i: ImageId)
    requires WorldOk(s) && i in s.images
    ensures WorldOk(Erased(s, i))
  {
  }

  lemma ErasedCalm(s: State, i: ImageId, t: Txn, u: Txn)
    requires i in s.images && KeyIsOwn(s, i, s.images[i].key) && Apart(t, u) && Holds(t, i) == Some(Update)
    requires UploadOf(u) == Some(i) && Holds(u, i).None? ==> s.images[i].key !in s.bucket
    ensures Calm(s, Erased(s, i), u)
  {
    LockedOut(t, u, i);
  }

  lemma NoObjectYet(s: State, u: Txn, i: ImageId)
    requires TxnOk(s, u) && UploadOf(u) == Some(i) && Holds(u, i).None? && i in s.images
    ensures s.images[i].key !in s.bucket
  {
  }

  ghost function SweptOn(t: Txn, i: ImageId, ok: bool): Txn
    requires t.Sweeping?
  {
    Sweeping(t.pass, t.ids, t.todo - {i}, if ok then t.gone + {i} else t.gone)
  }

  lemma SweepingOn(s: State, t: Txn, i: ImageId)
    requires t.Sweeping? && TxnOk(s, t) && i in t.todo
    ensures TxnOk(s, SweptOn(t, i, false))
    ensures i in s.images && TxnOk(Erased(s, i), SweptOn(t, i, true)) && TxnOk(Erased(s, i), SweptOn(t, i, false))
  {
  }

  lemma ErasedOther(s: State, i: ImageId, ok: bool, t: Txn, u: Txn)
    requires i in s.images && KeyIsOwn(s, i, s.images[i].key) && TxnOk(s, t) && TxnOk(s, u) && Apart(t, u)
    requires t.Sweeping? && i in t.todo
    ensures Calm(s, Erased(s, i), u) && Apart(SweptOn(t, i, ok), u)
  {
    if UploadOf(u) == Some(i) && Holds(u, i).None? { NoObjectYet(s, u, i); }
    ErasedCalm(s, i, t, u);
    SameApart(t, SweptOn(t, i, ok), u);
  }

  lemma ErasedTxns(s: State, a: ActorId, i: ImageId, ok: bool)
    requires TxnsOk(s) && a in s.actors && s.actors[a].Sweeping? && i in s.actors[a].todo && i in s.images
    requires KeyIsOwn(s, i, s.images[i].key)
    ensures TxnsOk(Go(Erased(s, i), a, SweptOn(s.actors[a], i, ok)))
  {
    var t := s.actors[a];
    assert TxnOk(s, t);
    SweepingOn(s, t, i);
    forall b | b in s.actors && b != a
      ensures Calm(s, Erased(s, i), s.actors[b]) && Apart(SweptOn(t, i, ok), s.actors[b])
    {
      ErasedOther(s, i, ok, t, s.actors[b]);
    }
    OthersKeepAndMoved(s, Erased(s, i), a, SweptOn(t, i, ok));
  }

  lemma KeepErased(s: State, a: ActorId, i: ImageId, ok: bool)
    requires Inv(s) && a in s.actors && s.actors[a].Sweeping? && i in s.actors[a].todo && i in s.images
    ensures Inv(Go(Erased(s, i), a, SweptOn(s.actors[a], i, ok)))
  {
    ErasedWorld(s, i);
    KeysAreOwn(s, i);
    ErasedTxns(s, a, i, ok);
    SameTables(Erased(s, i), Go(Erased(s, i), a, SweptOn(s.actors[a], i, ok)));
  }

  lemma KeepSpared(s: State, a: ActorId, i: ImageId)
    requires Inv(s) && a in s.actors && s.actors[a].Sweeping? && i in s.actors[a].todo
    ensures Inv(Go(s, a, SweptOn(s.actors[a], i, false)))
  {
    assert TxnOk(s, s.actors[a]);
    SweepingOn(s, s.actors[a], i);
    KeepAlong(s, a, SweptOn(s.actors[a], i, false));
  }

  lemma KeepStorageDelete(s: State, a: ActorId, i: ImageId, outcome: DeleteOutcome)
    requires Inv(s) && SweepEnabled(s, a, StorageDelete(i, outcome))
    ensures Inv(SweepNext(s, a, StorageDelete(i, outcome)))
  {
    if outcome.DeleteFailed? { KeepSpared(s, a, i); } else { KeepErased(s, a, i, outcome.Deleted?); }
  }

  ghost function Swept(s: State, gone: set<ImageId>): State {
    s.(images := s.images - gone, refs := set r | r in s.refs && r.image !in gone)
  }

  lemma SweptWorld(s: State, gone: set<ImageId>)
    requires WorldOk(s) && forall i :: i in gone && i in s.images ==> s.images[i].key !in s.bucket
    ensures WorldOk(Swept(s, gone))
  {
  }

  lemma SweptCalm(s: State, gone: set<ImageId>, u: Txn)
    requires forall i :: i in gone ==> Holds(u, i).None?
    ensures Calm(s, Swept(s, gone), u)
  {
  }

  lemma SweptTxns(s: State, a: ActorId)
    requires TxnsOk(s) && a in s.actors && s.actors[a].RowsDeleted?
    ensures TxnsOk(End(Swept(s, s.actors[a].gone), a))
  {
    var t := s.actors[a];
    assert TxnOk(s, t);
    forall b | b in s.actors && b != a ensures Calm(s, Swept(s, t.gone), s.actors[b]) {
      forall i | i in t.gone ensures Holds(s.actors[b], i).None? { LockedOut(t, s.actors[b], i); }
      SweptCalm(s, t.gone, s.actors[b]);
    }
    OthersKeep(s, Swept(s, t.gone), a);
  }

  lemma KeepCommitSweep(s: State, a: ActorId)
    requires Inv(s) && SweepEnabled(s, a, CommitSweep)
    ensures Inv(SweepNext(s, a, CommitSweep))
  {
    var t := s.actors[a];
    assert TxnOk(s, t);
    SweptWorld(s, t.gone);
    SweptTxns(s, a);
    SameTables(Swept(s, t.gone), SweepNext(s, a, CommitSweep));
  }

  // Purging a withdrawn user.

  ghost function Disowned(s: State, u: UserId, refs: set<Ref>): State {
    s.(images := map i | i in s.images :: Disown(s.images[i], u), refs := refs)
  }

  lemma PurgedCalm(s: State, u: UserId, refs: set<Ref>, t: Txn)
    requires refs <= s.refs
    requires forall i :: i in s.images && s.images[i].uploader == Some(u) ==> Compatible(t, i, NoKeyUpdate)
    ensures Calm(s, Disowned(s, u, refs), t)
  {
    forall i | Strong(t, i) && i in s.images ensures s.images[i].uploader != Some(u) { }
  }

  lemma PurgedWorld(s: State, u: UserId, refs: set<Ref>)
    requires WorldOk(s) && refs <= s.refs
    ensures WorldOk(Disowned(s, u, refs))
  {
    PurgedRows(s, u, refs);
    PurgedObjects(s, u, refs);
  }

  lemma PurgedRows(s: State, u: UserId, refs: set<Ref>)
    requires RowsOk(s)
    ensures RowsOk(Disowned(s, u, refs))
  {
  }

  lemma PurgedObjects(s: State, u: UserId, refs: set<Ref>)
    requires ObjectsOk(s)
    ensures ObjectsOk(Disowned(s, u, refs))
  {
  }

  lemma PurgedTxns(s: State, u: UserId, refs: set<Ref>)
    requires TxnsOk(s) && refs <= s.refs
    requires forall i, b :: i in s.images && s.images[i].uploader == Some(u) && b in s.actors ==>
               Compatible(s.actors[b], i, NoKeyUpdate)
    ensures TxnsOk(Disowned(s, u, refs))
  {
    forall b | b in s.actors ensures TxnOk(Disowned(s, u, refs), s.actors[b]) {
      PurgedCalm(s, u, refs, s.actors[b]);
      Undisturbed(s, Disowned(s, u, refs), s.actors[b]);
    }
  }

  lemma KeepPurgeUser(s: State, u: UserId, holders: set<Holder>)
    requires Inv(s) && EnvEnabled(s, PurgeUser(u, holders))
    ensures Inv(EnvNext(s, PurgeUser(u, holders)))
  {
    var refs := set r | r in s.refs && r.holder !in holders;
    PurgedWorld(s, u, refs);
    PurgedTxns(s, u, refs);
  }

  // ---- every event ----------------------------------------------------------------------------

  lemma KeepEnv(s: State, e: EnvStep)
    requires Inv(s) && EnvEnabled(s, e)
    ensures Inv(EnvNext(s, e))
  {
    match e
    case Tick(seconds) => KeepTick(s, seconds);
    case PutPending(pend, obj) => KeepPutPending(s, pend, obj);
    case ExpirePending(pend) => KeepExpirePending(s, pend);
    case DropRefs(holder, dropped) => KeepDropRefs(s, holder, dropped);
    case PurgeUser(u, holders) => KeepPurgeUser(s, u, holders);
  }

  lemma KeepUpload(s: State, a: ActorId, e: UploadStep)
    requires Inv(s) && UploadEnabled(s, a, e)
    ensures Inv(UploadNext(s, a, e))
  {
    match e
    case Head(_, _, _, _) => KeepHead(s, a, e);
    case Reserve(id, key) => KeepReserve(s, a, id, key);
    case LockReserved => KeepLockReserved(s, a);
    case Promote(copy) => KeepPromote(s, a, copy);
    case IssueToken => KeepIssueToken(s, a);
    case Confirm => KeepConfirm(s, a);
    case CommitUpload => KeepCommitUpload(s, a);
  }

  lemma KeepUse(s: State, a: ActorId, e: UseStep)
    requires Inv(s) && UseEnabled(s, a, e)
    ensures Inv(UseNext(s, a, e))
  {
    match e
    case BeginAttach(holder, ids) => KeepBeginAttach(s, a, holder, ids);
    case InsertRefs(dropped) => KeepInsertRefs(s, a, dropped);
    case CommitAttach => KeepCommitAttach(s, a);
    case BeginSignup(u, i) => KeepBeginSignup(s, a, u, i);
    case Claim => KeepClaim(s, a);
    case CommitSignup => KeepCommitSignup(s, a);
    case BeginSoftDelete(u, i) => KeepBeginSoftDelete(s, a, u, i);
    case DetachRefs => KeepDetachRefs(s, a);
    case CommitSoftDelete => KeepCommitSoftDelete(s, a);
  }

  lemma KeepSweep(s: State, a: ActorId, e: SweepStep)
    requires Inv(s) && SweepEnabled(s, a, e)
    ensures Inv(SweepNext(s, a, e))
  {
    match e
    case SweepFetch(pass, ids) => KeepSweepFetch(s, a, pass, ids);
    case StorageDelete(i, outcome) => KeepStorageDelete(s, a, i, outcome);
    case DeleteRows => KeepDeleteRows(s, a);
    case CommitSweep => KeepCommitSweep(s, a);
  }

  lemma KeepEvent(s: State, e: Event)
    requires Inv(s) && Enabled(s, e)
    ensures Inv(Next(s, e))
  {
    match e
    case Env(step) => KeepEnv(s, step);
    case Upload(a, step) => KeepUpload(s, a, step);
    case Use(a, step) => KeepUse(s, a, step);
    case Sweep(a, step) => KeepSweep(s, a, step);
    case Crash(a) => KeepEnd(s, a);
  }
}
