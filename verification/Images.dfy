/**
 * The image lifecycle protocol: uploaders, attachers, sign-ups, soft deleters and sweepers share
 * the `images` rows, the references to them and the objects of the bucket. They are ordered only
 * by row locks. One event is one SQL statement, one commit or one storage call. Writes of an open
 * transaction live in its `Txn` and reach the committed state when it commits; a crash or an
 * error drops the `Txn`, and with it its locks and its writes, but keeps what storage has done.
 */
module Images {
  import opened Options

  type ImageId = nat
  type UserId = nat
  type ActorId = nat
  type PendingKey = nat
  type ETag = string

  const MAX_BYTES := 10 * 1024 * 1024
  const GRACE_SECONDS := 60
  const ABANDONED_SECONDS := 24 * 3600
  const SIGNUP_TOKEN_SECONDS := 3600

  datatype ContentType = Jpeg | Png | Webp | Unsupported
  datatype Object = Object(etag: ETag, size: nat, contentType: ContentType)
  datatype Purpose = Profile | Post | Signup
  datatype ObjectKey = ObjectKey(purpose: Purpose, ulid: nat)
  datatype Row = Row(key: ObjectKey, uploader: Option<UserId>, createdAt: int, deletedAt: Option<int>,
                     size: nat, contentType: ContentType)
  datatype Holder = UserProfile(user: UserId) | DogProfile(dog: nat) | PostImages(post: nat)
  datatype Ref = Ref(holder: Holder, image: ImageId)

  // Row-level lock modes and their conflicts, as PostgreSQL defines them.
  datatype LockMode = KeyShare | Share | NoKeyUpdate | Update

  predicate Conflicts(held: LockMode, wanted: LockMode) {
    match held
    case KeyShare => wanted == Update
    case Share => wanted == NoKeyUpdate || wanted == Update
    case NoKeyUpdate => wanted != KeyShare
    case Update => true
  }

  datatype Pass = ExpiredSignups | Abandoned | Reclaimable

  /** Where an actor stands in its program, with the writes it has not committed yet. */
  datatype Txn =
    | Validated(pend: PendingKey, obj: Object, purpose: Purpose, uploader: Option<UserId>)
    | Reserved(id: ImageId, key: ObjectKey, pend: PendingKey, obj: Object)
    | Locked(id: ImageId, key: ObjectKey, pend: PendingKey, obj: Object)
    | Promoted(id: ImageId, key: ObjectKey, obj: Object, tokened: bool)
    | Confirmed(id: ImageId, key: ObjectKey, obj: Object)
    | Checked(holder: Holder, ids: set<ImageId>)
    | Attached(holder: Holder, ids: set<ImageId>, dropped: set<ImageId>)
    | SignedUp(user: UserId, id: ImageId)
    | Claimed(user: UserId, id: ImageId)
    | SoftDeleted(user: UserId, id: ImageId, at: int)
    | Detached(user: UserId, id: ImageId, at: int, cut: set<Ref>)
    | Sweeping(pass: Pass, ids: set<ImageId>, todo: set<ImageId>, gone: set<ImageId>)
    | RowsDeleted(pass: Pass, ids: set<ImageId>, gone: set<ImageId>)

  /** The lock a transaction holds on row `i`. */
  function Holds(t: Txn, i: ImageId): Option<LockMode> {
    match t
    case Validated(_, _, _, _) => None
    case Reserved(_, _, _, _) => None
    case Locked(id, _, _, _) => if i == id then Some(Update) else None
    case Promoted(id, _, _, _) => if i == id then Some(Update) else None
    case Confirmed(id, _, _) => if i == id then Some(Update) else None
    case Checked(_, ids) => if i in ids then Some(Share) else None
    case Attached(_, ids, _) => if i in ids then Some(Share) else None
    case SignedUp(_, id) => if i == id then Some(KeyShare) else None
    case Claimed(_, id) => if i == id then Some(NoKeyUpdate) else None
    case SoftDeleted(_, id, _) => if i == id then Some(NoKeyUpdate) else None
    case Detached(_, id, _, _) => if i == id then Some(NoKeyUpdate) else None
    case Sweeping(_, ids, _, _) => if i in ids then Some(Update) else None
    case RowsDeleted(_, ids, _) => if i in ids then Some(Update) else None
  }

  /** The image an upload has reserved, if it has got that far. */
  function UploadOf(t: Txn): Option<ImageId> {
    match t
    case Reserved(id, _, _, _) => Some(id)
    case Locked(id, _, _, _) => Some(id)
    case Promoted(id, _, _, _) => Some(id)
    case Confirmed(id, _, _) => Some(id)
    case _ => None
  }

  /**
   * `keyOf`, `contents` and `tokens` are history: every image id ever reserved with its key, the
   * object each ETag has stood for, and the images an upload token was stored for.
   */
  datatype State = State(
    now: int,
    images: map<ImageId, Row>,
    refs: set<Ref>,
    bucket: map<ObjectKey, Object>,
    pending: map<PendingKey, Object>,
    actors: map<ActorId, Txn>,
    keyOf: map<ImageId, ObjectKey>,
    contents: map<ETag, Object>,
    tokens: set<ImageId>)

  datatype CopyOutcome = CopyFailed | CopiedThenFailed | Copied
  datatype DeleteOutcome = Deleted | DeleteFailed | DeletedThenFailed

  /** What happens without a transaction of its own, or in a single committed statement. */
  datatype EnvStep =
    | Tick(seconds: nat)
    | PutPending(pend: PendingKey, obj: Object)
    | ExpirePending(pend: PendingKey)
    | DropRefs(holder: Holder, dropped: set<ImageId>)
    | PurgeUser(user: UserId, holders: set<Holder>)

  datatype UploadStep =
    | Head(pend: PendingKey, purpose: Purpose, uploader: Option<UserId>, expected: Option<nat>)
    | Reserve(id: ImageId, key: ObjectKey)
    | LockReserved
    | Promote(copy: CopyOutcome)
    | IssueToken
    | Confirm
    | CommitUpload

  datatype UseStep =
    | BeginAttach(holder: Holder, ids: set<ImageId>)
    | InsertRefs(dropped: set<ImageId>)
    | CommitAttach
    | BeginSignup(user: UserId, id: ImageId)
    | Claim
    | CommitSignup
    | BeginSoftDelete(user: UserId, id: ImageId)
    | DetachRefs
    | CommitSoftDelete

  datatype SweepStep =
    | SweepFetch(pass: Pass, ids: set<ImageId>)
    | StorageDelete(id: ImageId, outcome: DeleteOutcome)
    | DeleteRows
    | CommitSweep

  datatype Event =
    | Env(env: EnvStep)
    | Upload(actor: ActorId, up: UploadStep)
    | Use(actor: ActorId, use: UseStep)
    | Sweep(actor: ActorId, sweep: SweepStep)
    | Crash(actor: ActorId)

  // ---- what the statements test -------------------------------------------------------------

  predicate Live(s: State, i: ImageId) { i in s.images && s.images[i].deletedAt.None? }

  predicate Marked(s: State, i: ImageId) { i in s.images && s.images[i].deletedAt.Some? }

  predicate Unreferenced(s: State, i: ImageId) { forall r :: r in s.refs ==> r.image != i }

  predicate Compatible(t: Txn, i: ImageId, mode: LockMode) {
    Holds(t, i).None? || !Conflicts(Holds(t, i).value, mode)
  }

  /** Actor `a` would not have to wait for `mode` on row `i`. */
  predicate Free(s: State, a: ActorId, i: ImageId, mode: LockMode) {
    forall b :: b in s.actors && b != a ==> Compatible(s.actors[b], i, mode)
  }

  predicate ValidObject(o: Object) {
    1 <= o.size <= MAX_BYTES && !o.contentType.Unsupported? && o.etag != ""
  }

  predicate Claimable(s: State, i: ImageId) { Live(s, i) && s.images[i].uploader.None? }

  predicate DeletableBy(s: State, i: ImageId, u: UserId) { Live(s, i) && s.images[i].uploader == Some(u) }

  predicate Eligible(s: State, pass: Pass, i: ImageId) {
    i in s.images &&
    var row := s.images[i];
    match pass
    case ExpiredSignups => row.uploader.None? && row.deletedAt.None? && row.createdAt < s.now - SIGNUP_TOKEN_SECONDS
    case Abandoned => row.createdAt < s.now - ABANDONED_SECONDS && row.deletedAt.None? && Unreferenced(s, i)
    case Reclaimable => row.deletedAt.Some? && row.deletedAt.value < s.now - GRACE_SECONDS && Unreferenced(s, i)
  }

  // ---- the step relation --------------------------------------------------------------------

  function Go(s: State, a: ActorId, t: Txn): State { s.(actors := s.actors[a := t]) }

  function End(s: State, a: ActorId): State { s.(actors := s.actors - {a}) }

  // The environment.

  predicate EnvEnabled(s: State, e: EnvStep) {
    match e
    case Tick(_) => true
    case PutPending(_, obj) => obj.etag in s.contents ==> s.contents[obj.etag] == obj
    case ExpirePending(_) => true
    case DropRefs(_, _) => true
    case PurgeUser(u, _) =>
      forall i, b :: i in s.images && s.images[i].uploader == Some(u) && b in s.actors ==>
        Compatible(s.actors[b], i, NoKeyUpdate)
  }

  function Disown(row: Row, u: UserId): Row { if row.uploader == Some(u) then row.(uploader := None) else row }

  function EnvNext(s: State, e: EnvStep): State
    requires EnvEnabled(s, e)
  {
    match e
    case Tick(seconds) => s.(now := s.now + seconds)
    case PutPending(pend, obj) => s.(pending := s.pending[pend := obj], contents := s.contents[obj.etag := obj])
    case ExpirePending(pend) => s.(pending := s.pending - {pend})
    case DropRefs(holder, dropped) => s.(refs := s.refs - (set i | i in dropped :: Ref(holder, i)))
    case PurgeUser(u, holders) =>
      s.(images := map i | i in s.images :: Disown(s.images[i], u),
         refs := set r | r in s.refs && r.holder !in holders)
  }

  // Uploads: validate, reserve, lock, promote, confirm.

  predicate UploadEnabled(s: State, a: ActorId, e: UploadStep) {
    match e
    case Head(_, purpose, uploader, _) => a !in s.actors && (uploader.None? <==> purpose.Signup?)
    case Reserve(id, key) =>
      && a in s.actors && s.actors[a].Validated? && key.purpose == s.actors[a].purpose
      && id !in s.keyOf && forall j :: j in s.keyOf ==> s.keyOf[j] != key
    case LockReserved =>
      && a in s.actors && s.actors[a].Reserved?
      && (Marked(s, s.actors[a].id) ==> Free(s, a, s.actors[a].id, Update))
    case Promote(copy) =>
      && a in s.actors && s.actors[a].Locked?
      && (!copy.CopyFailed? ==>
            s.actors[a].pend in s.pending && s.pending[s.actors[a].pend].etag == s.actors[a].obj.etag)
    case IssueToken => a in s.actors && s.actors[a].Promoted? && s.actors[a].key.purpose.Signup?
    case Confirm =>
      a in s.actors && s.actors[a].Promoted? && (s.actors[a].key.purpose.Signup? ==> s.actors[a].tokened)
    case CommitUpload => a in s.actors && s.actors[a].Confirmed? && s.actors[a].id in s.images
  }

  function UploadNext(s: State, a: ActorId, e: UploadStep): State
    requires UploadEnabled(s, a, e)
  {
    match e
    case Head(pend, purpose, uploader, expected) =>
      if pend in s.pending && ValidObject(s.pending[pend]) && (expected.None? || expected.value == s.pending[pend].size)
      then Go(s, a, Validated(pend, s.pending[pend], purpose, uploader)) else s
    case Reserve(id, key) =>
      var t := s.actors[a];
      var row := Row(key, t.uploader, s.now, Some(s.now), t.obj.size, t.obj.contentType);
      Go(s.(images := s.images[id := row], keyOf := s.keyOf[id := key]), a, Reserved(id, key, t.pend, t.obj))
    case LockReserved =>
      var t := s.actors[a];
      if Marked(s, t.id) then Go(s, a, Locked(t.id, t.key, t.pend, t.obj)) else End(s, a)
    case Promote(copy) =>
      var t := s.actors[a];
      (match copy
       case CopyFailed => End(s, a)
       case CopiedThenFailed => End(s.(bucket := s.bucket[t.key := s.pending[t.pend]]), a)
       case Copied => Go(s.(bucket := s.bucket[t.key := s.pending[t.pend]], pending := s.pending - {t.pend}), a,
                         Promoted(t.id, t.key, t.obj, false)))
    case IssueToken => Go(s.(tokens := s.tokens + {s.actors[a].id}), a, s.actors[a].(tokened := true))
    case Confirm =>
      var t := s.actors[a];
      if Marked(s, t.id) then Go(s, a, Confirmed(t.id, t.key, t.obj)) else End(s, a)
    case CommitUpload =>
      var t := s.actors[a];
      var row := s.images[t.id].(deletedAt := None, size := t.obj.size, contentType := t.obj.contentType);
      End(s.(images := s.images[t.id := row]), a)
  }

  // Attaching, signing up with an image, soft deletion.

  predicate UseEnabled(s: State, a: ActorId, e: UseStep) {
    match e
    case BeginAttach(_, ids) => a !in s.actors && forall i :: i in ids && Live(s, i) ==> Free(s, a, i, Share)
    case InsertRefs(_) => a in s.actors && s.actors[a].Checked?
    case CommitAttach => a in s.actors && s.actors[a].Attached?
    case BeginSignup(_, i) => a !in s.actors && (i in s.images ==> Free(s, a, i, KeyShare))
    case Claim =>
      && a in s.actors && s.actors[a].SignedUp?
      && (Claimable(s, s.actors[a].id) ==> Free(s, a, s.actors[a].id, NoKeyUpdate))
    case CommitSignup => a in s.actors && s.actors[a].Claimed? && s.actors[a].id in s.images
    case BeginSoftDelete(u, i) => a !in s.actors && (DeletableBy(s, i, u) ==> Free(s, a, i, NoKeyUpdate))
    case DetachRefs => a in s.actors && s.actors[a].SoftDeleted?
    case CommitSoftDelete => a in s.actors && s.actors[a].Detached? && s.actors[a].id in s.images
  }

  function UseNext(s: State, a: ActorId, e: UseStep): State
    requires UseEnabled(s, a, e)
  {
    match e
    case BeginAttach(holder, ids) =>
      if forall i :: i in ids ==> Live(s, i) then Go(s, a, Checked(holder, ids)) else s
    case InsertRefs(dropped) => Go(s, a, Attached(s.actors[a].holder, s.actors[a].ids, dropped))
    case CommitAttach =>
      var t := s.actors[a];
      var dropped, added := (set i | i in t.dropped :: Ref(t.holder, i)), (set i | i in t.ids :: Ref(t.holder, i));
      End(s.(refs := s.refs - dropped + added), a)
    case BeginSignup(u, i) => if i in s.images then Go(s, a, SignedUp(u, i)) else s
    case Claim =>
      var t := s.actors[a];
      if Claimable(s, t.id) then Go(s, a, Claimed(t.user, t.id)) else End(s, a)
    case CommitSignup =>
      var t := s.actors[a];
      var row := s.images[t.id].(uploader := Some(t.user));
      End(s.(images := s.images[t.id := row], refs := s.refs + {Ref(UserProfile(t.user), t.id)}), a)
    case BeginSoftDelete(u, i) => if DeletableBy(s, i, u) then Go(s, a, SoftDeleted(u, i, s.now)) else s
    case DetachRefs =>
      var t := s.actors[a];
      Go(s, a, Detached(t.user, t.id, t.at, set r | r in s.refs && r.image == t.id))
    case CommitSoftDelete =>
      var t := s.actors[a];
      var row := s.images[t.id].(deletedAt := Some(t.at));
      End(s.(images := s.images[t.id := row], refs := s.refs - t.cut), a)
  }

  // Sweeping: one transaction per page.

  predicate SweepEnabled(s: State, a: ActorId, e: SweepStep) {
    match e
    case SweepFetch(pass, ids) =>
      a !in s.actors && forall i :: i in ids ==> Eligible(s, pass, i) && Free(s, a, i, Update)
    case StorageDelete(i, _) => a in s.actors && s.actors[a].Sweeping? && i in s.actors[a].todo && i in s.images
    case DeleteRows => a in s.actors && s.actors[a].Sweeping? && s.actors[a].todo == {}
    case CommitSweep => a in s.actors && s.actors[a].RowsDeleted?
  }

  function SweepNext(s: State, a: ActorId, e: SweepStep): State
    requires SweepEnabled(s, a, e)
  {
    match e
    case SweepFetch(pass, ids) => Go(s, a, Sweeping(pass, ids, ids, {}))
    case StorageDelete(i, outcome) =>
      var t := s.actors[a];
      var s' := if outcome.DeleteFailed? then s else s.(bucket := s.bucket - {s.images[i].key});
      Go(s', a, Sweeping(t.pass, t.ids, t.todo - {i}, if outcome.Deleted? then t.gone + {i} else t.gone))
    case DeleteRows => Go(s, a, RowsDeleted(s.actors[a].pass, s.actors[a].ids, s.actors[a].gone))
    case CommitSweep =>
      // Foreign keys clear the references: SET NULL for users and dogs, CASCADE for post images.
      End(s.(images := s.images - s.actors[a].gone, refs := set r | r in s.refs && r.image !in s.actors[a].gone), a)
  }

  predicate Enabled(s: State, e: Event) {
    match e
    case Env(step) => EnvEnabled(s, step)
    case Upload(a, step) => UploadEnabled(s, a, step)
    case Use(a, step) => UseEnabled(s, a, step)
    case Sweep(a, step) => SweepEnabled(s, a, step)
    case Crash(a) => a in s.actors
  }

  function Next(s: State, e: Event): State
    requires Enabled(s, e)
  {
    match e
    case Env(step) => EnvNext(s, step)
    case Upload(a, step) => UploadNext(s, a, step)
    case Use(a, step) => UseNext(s, a, step)
    case Sweep(a, step) => SweepNext(s, a, step)
    case Crash(a) => End(s, a)
  }

  /** Every run: any interleaving of enabled events from an empty system. */
  datatype Trace = Start(now: int) | Then(prev: Trace, event: Event)

  ghost predicate Legal(t: Trace)
    decreases t, 0
  {
    t.Start? || (Legal(t.prev) && Enabled(Last(t.prev), t.event))
  }

  ghost function Last(t: Trace): State
    requires Legal(t)
    decreases t, 1
  {
    match t
    case Start(now) => State(now, map[], {}, map[], map[], map[], map[], map[], {})
    case Then(prev, e) => Next(Last(prev), e)
  }
}
