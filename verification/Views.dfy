/**
 * The view-count write-behind. Trackers add to a Redis hash; any number of flushers RENAME it to
 * a drain key of their own, apply the drain to the posts in one transaction and, when anything
 * fails before the commit, merge the drain back. One event is one Redis command, one SQL
 * statement or one commit. The flush lock is left out, so flushers overlap freely, as they do
 * once the lock has expired.
 */
module Views {
  type PostId = nat
  type Counts = map<PostId, int>

  function Get(m: Counts, p: PostId): int { if p in m then m[p] else 0 }

  function Plus(m: Counts, d: Counts): (r: Counts)
    ensures r.Keys == m.Keys + d.Keys
    ensures forall p {:trigger Get(r, p)} :: Get(r, p) == Get(m, p) + Get(d, p)
  {
    map p | p in m.Keys + d.Keys :: Get(m, p) + Get(d, p)
  }

  /** HINCRBY */
  function Add(m: Counts, p: PostId, n: int): Counts { m[p := Get(m, p) + n] }

  function Only(m: Counts, ps: set<PostId>): (r: Counts)
    ensures r.Keys == m.Keys * ps
    ensures forall p {:trigger Get(r, p)} :: Get(r, p) == if p in ps then Get(m, p) else 0
  {
    map p | p in m && p in ps :: m[p]
  }

  datatype Phase =
    | Opened
    | Renamed
    | Applying(fields: Counts, done: set<PostId>, hits: set<PostId>)
    | Committed
    | Failing
    | Merging(left: Counts)
    | Finished

  /** A run of the flush; `drain` is the hash under its own drain key. */
  datatype Flusher = Flusher(phase: Phase, drain: Counts)

  /**
   * The committed counts and the buffer hash. History: `recorded` views, views `lost` in a failed
   * merge or a crash, and views `doubled` by a command that took effect although the caller saw
   * it fail.
   */
  datatype Books = Books(views: Counts, buffer: Counts, recorded: Counts, lost: Counts, doubled: Counts)

  datatype State = State(books: Books, live: set<PostId>, flushers: seq<Flusher>)

  datatype Reply = Arrived | LostAfterEffect | FailedBefore

  datatype Step =
    | Rename(reply: Reply)
    | ReadDrain(ok: bool)
    | Apply(post: PostId)
    | Abort
    | Commit(reply: Reply)
    | DeleteDrain(ok: bool)
    | MergeRead(ok: bool)
    | MergeField(post: PostId, reply: Reply)
    | MergeDelete(ok: bool)
    | Crash

  datatype Event =
    | CreatePost(post: PostId)
    | DeletePost(post: PostId)
    | Track(post: PostId)
    | TrackDirect(post: PostId, buffered: bool)
    | StartFlush
    | Flush(flusher: nat, step: Step)

  // ---- one flusher -------------------------------------------------------------------------------

  predicate Ready(f: Flusher, e: Step) {
    match e
    case Rename(_) => f.phase.Opened?
    case ReadDrain(_) => f.phase.Renamed?
    case Apply(p) => f.phase.Applying? && p in f.phase.fields && p !in f.phase.done
    case Abort => f.phase.Applying?
    case Commit(_) => f.phase.Applying? && f.phase.done == f.phase.fields.Keys
    case DeleteDrain(_) => f.phase.Committed?
    case MergeRead(_) => f.phase.Failing?
    case MergeField(p, _) => f.phase.Merging? && p in f.phase.left
    case MergeDelete(_) => f.phase.Merging? && f.phase.left == map[]
    case Crash => !f.phase.Finished?
  }

  /** The views a flusher still has to bring home: neither committed nor merged back. */
  function Outstanding(f: Flusher): Counts {
    match f.phase
    case Opened => map[]
    case Renamed => f.drain
    case Applying(fields, _, _) => fields
    case Committed => map[]
    case Failing => f.drain
    case Merging(left) => left
    case Finished => map[]
  }

  /** The buffer becomes the drain; RENAME of a missing key does nothing. */
  function Renaming(b: Books, f: Flusher, phase: Phase): (Books, Flusher) {
    if b.buffer == map[] then (b, f.(phase := phase)) else (b.(buffer := map[]), Flusher(phase, b.buffer))
  }

  function RenameNext(b: Books, f: Flusher, reply: Reply): (Books, Flusher) {
    match reply
    case Arrived => Renaming(b, f, if b.buffer == map[] then Finished else Renamed)
    case LostAfterEffect => Renaming(b, f, Failing)
    case FailedBefore => (b, f.(phase := Failing))
  }

  /** The flush ends here and nobody reads its drain key again. */
  function Lose(b: Books, f: Flusher): (Books, Flusher) {
    (b.(lost := Plus(b.lost, Outstanding(f))), f.(phase := Finished))
  }

  function CommitNext(b: Books, f: Flusher, reply: Reply): (Books, Flusher)
    requires f.phase.Applying?
  {
    var applied := Only(f.phase.fields, f.phase.hits);
    match reply
    case Arrived => (b.(views := Plus(b.views, applied)), f.(phase := Committed))
    case LostAfterEffect =>
      (b.(views := Plus(b.views, applied), doubled := Plus(b.doubled, applied)), f.(phase := Failing))
    case FailedBefore => (b, f.(phase := Failing))
  }

  /** One HINCRBY of the merge has taken effect; without its reply the merge stops there. */
  function MergedField(b: Books, f: Flusher, p: PostId, arrived: bool): (Books, Flusher)
    requires f.phase.Merging? && p in f.phase.left
  {
    var b' := b.(buffer := Add(b.buffer, p, f.phase.left[p]));
    var f' := f.(phase := Merging(f.phase.left - {p}));
    if arrived then (b', f') else Lose(b', f')
  }

  function FlushNext(b: Books, live: set<PostId>, f: Flusher, e: Step): (Books, Flusher)
    requires Ready(f, e)
  {
    match e
    case Rename(reply) => RenameNext(b, f, reply)
    case ReadDrain(ok) =>
      (b, f.(phase := if !ok then Failing else if f.drain == map[] then Finished else Applying(f.drain, {}, {})))
    case Apply(p) =>
      var hit := f.phase.fields[p] > 0 && p in live;
      (b, f.(phase := Applying(f.phase.fields, f.phase.done + {p}, if hit then f.phase.hits + {p} else f.phase.hits)))
    case Abort => (b, f.(phase := Failing))
    case Commit(reply) => CommitNext(b, f, reply)
    case DeleteDrain(ok) => (b, Flusher(Finished, if ok then map[] else f.drain))
    case MergeRead(ok) => if ok then (b, f.(phase := Merging(f.drain))) else Lose(b, f)
    case MergeField(p, reply) => if reply.FailedBefore? then Lose(b, f) else MergedField(b, f, p, reply.Arrived?)
    case MergeDelete(ok) => (b, Flusher(Finished, if ok then map[] else f.drain))
    case Crash => Lose(b, f)
  }

  // ---- the whole system --------------------------------------------------------------------------

  /** No open transaction but that of flusher `f` has updated the row of `p`. */
  predicate RowFree(s: State, f: int, p: PostId) {
    forall g :: 0 <= g < |s.flushers| && g != f && s.flushers[g].phase.Applying? ==> p !in s.flushers[g].phase.hits
  }

  predicate Enabled(s: State, e: Event) {
    match e
    case CreatePost(p) => p !in s.books.views
    case DeletePost(p) => RowFree(s, -1, p)
    case Track(p) => p in s.books.views
    case TrackDirect(p, _) => p in s.books.views && RowFree(s, -1, p)
    case StartFlush => true
    case Flush(f, step) =>
      f < |s.flushers| && Ready(s.flushers[f], step) && (step.Apply? ==> RowFree(s, f, step.post))
  }

  /** The tracker's fallback: HINCRBY raised, so the view goes to the database at once. */
  function CountedDirectly(b: Books, live: set<PostId>, p: PostId, buffered: bool): Books {
    Books(if p in live then Add(b.views, p, 1) else b.views,
          if buffered then Add(b.buffer, p, 1) else b.buffer,
          Add(b.recorded, p, 1),
          b.lost,
          if buffered then Add(b.doubled, p, 1) else b.doubled)
  }

  function Next(s: State, e: Event): State
    requires Enabled(s, e)
  {
    match e
    case CreatePost(p) => State(s.books.(views := s.books.views[p := 0]), s.live + {p}, s.flushers)
    case DeletePost(p) => s.(live := s.live - {p})
    case Track(p) =>
      s.(books := s.books.(buffer := Add(s.books.buffer, p, 1), recorded := Add(s.books.recorded, p, 1)))
    case TrackDirect(p, buffered) => s.(books := CountedDirectly(s.books, s.live, p, buffered))
    case StartFlush => s.(flushers := s.flushers + [Flusher(Opened, map[])])
    case Flush(f, step) =>
      var (b, f') := FlushNext(s.books, s.live, s.flushers[f], step);
      State(b, s.live, s.flushers[f := f'])
  }

  datatype Trace = Start | Then(prev: Trace, event: Event)

  ghost predicate Legal(t: Trace)
    decreases t, 0
  {
    t.Start? || (Legal(t.prev) && Enabled(Last(t.prev), t.event))
  }

  ghost function Last(t: Trace): State
    requires Legal(t)
    decreases t, 1
  {
    match t
    case Start => State(Books(map[], map[], map[], map[], map[]), {}, [])
    case Then(prev, e) => Next(Last(prev), e)
  }
}

module ViewConservation {
  import opened Views

  ghost function Total(fs: seq<Flusher>, p: PostId): int {
    if fs == [] then 0 else Get(Outstanding(fs[0]), p) + Total(fs[1..], p)
  }

  lemma {:induction false} TotalReplaced(fs: seq<Flusher>, i: nat, f: Flusher, p: PostId)
    requires i < |fs|
    ensures Total(fs[i := f], p) == Total(fs, p) - Get(Outstanding(fs[i]), p) + Get(Outstanding(f), p)
  {
    if i == 0 {
      assert fs[0 := f][1..] == fs[1..];
    } else {
      TotalReplaced(fs[1..], i - 1, f, p);
      assert fs[i := f][1..] == fs[1..][i - 1 := f];
    }
  }

  lemma {:induction false} TotalAppended(fs: seq<Flusher>, f: Flusher, p: PostId)
    ensures Total(fs + [f], p) == Total(fs, p) + Get(Outstanding(f), p)
  {
    if fs == [] {
      assert [] + [f] == [f] && [f][1..] == [];
    } else {
      TotalAppended(fs[1..], f, p);
      assert (fs + [f])[1..] == fs[1..] + [f];
    }
  }

  lemma {:induction false} TotalNotNegative(fs: seq<Flusher>, p: PostId)
    requires forall i :: 0 <= i < |fs| ==> Positive(Outstanding(fs[i]))
    ensures Total(fs, p) >= 0
  {
    if fs != [] {
      forall i | 0 <= i < |fs[1..]| ensures Positive(Outstanding(fs[1..][i])) { assert fs[1..][i] == fs[i + 1]; }
      TotalNotNegative(fs[1..], p);
    }
  }

  lemma {:induction false} TotalAbsent(fs: seq<Flusher>, p: PostId)
    requires forall i :: 0 <= i < |fs| ==> p !in Outstanding(fs[i])
    ensures Total(fs, p) == 0
  {
    if fs != [] {
      forall i | 0 <= i < |fs[1..]| ensures p !in Outstanding(fs[1..][i]) { assert fs[1..][i] == fs[i + 1]; }
      TotalAbsent(fs[1..], p);
    }
  }

  ghost predicate Positive(m: Counts) { forall p :: p in m ==> m[p] > 0 }

  ghost predicate NotNegative(m: Counts) { forall p :: p in m ==> m[p] >= 0 }

  ghost predicate FlusherOk(live: set<PostId>, f: Flusher) {
    && Positive(f.drain)
    && (f.phase.Opened? ==> f.drain == map[])
    && (f.phase.Merging? ==> Positive(f.phase.left))
    && (f.phase.Applying? ==>
          && f.phase.fields == f.drain && f.phase.hits <= f.phase.done <= f.phase.fields.Keys
          && (forall p :: p in f.phase.done && p in live ==> p in f.phase.hits))
  }

  ghost predicate Known(views: Counts, f: Flusher) { f.drain.Keys <= views.Keys && Outstanding(f).Keys <= views.Keys }

  ghost predicate BooksOk(b: Books) {
    && Positive(b.buffer) && NotNegative(b.lost) && NotNegative(b.doubled) && NotNegative(b.recorded)
    && b.buffer.Keys + b.recorded.Keys + b.lost.Keys + b.doubled.Keys <= b.views.Keys
  }

  ghost predicate Sane(s: State) {
    && BooksOk(s.books) && s.live <= s.books.views.Keys
    && (forall i :: 0 <= i < |s.flushers| ==> FlusherOk(s.live, s.flushers[i]) && Known(s.books.views, s.flushers[i]))
  }

  /** Committed, buffered and outstanding views of `p`. */
  ghost function Counted(s: State, p: PostId): int {
    Get(s.books.views, p) + Get(s.books.buffer, p) + Total(s.flushers, p)
  }

  /** The books of post `p` balance. */
  ghost predicate Balanced(s: State, p: PostId) {
    Counted(s, p) + Get(s.books.lost, p) == Get(s.books.recorded, p) + Get(s.books.doubled, p)
  }

  // ---- one step of a flusher -----------------------------------------------------------------------

  ghost function Weight(b: Books, f: Flusher, p: PostId): int {
    Get(b.views, p) + Get(b.buffer, p) + Get(Outstanding(f), p) + Get(b.lost, p) - Get(b.doubled, p)
  }

  /** The step leaves the weight of `p` and the recorded views alone. */
  ghost predicate Moves(b: Books, f: Flusher, r: (Books, Flusher), p: PostId) {
    Weight(r.0, r.1, p) == Weight(b, f, p) && r.0.recorded == b.recorded
  }

  lemma CommitMoves(b: Books, live: set<PostId>, f: Flusher, reply: Reply, p: PostId)
    requires Ready(f, Commit(reply)) && FlusherOk(live, f) && p in live
    ensures Moves(b, f, CommitNext(b, f, reply), p)
  {
  }

  lemma MergedFieldMoves(b: Books, f: Flusher, q: PostId, arrived: bool, p: PostId)
    requires f.phase.Merging? && q in f.phase.left
    ensures Moves(b, f, MergedField(b, f, q, arrived), p)
  {
  }

  lemma RenamingMoves(b: Books, f: Flusher, reply: Reply, p: PostId)
    requires f.phase.Opened? && f.drain == map[]
    ensures Moves(b, f, RenameNext(b, f, reply), p)
  {
  }

  lemma LoseMoves(b: Books, f: Flusher, p: PostId)
    ensures Moves(b, f, Lose(b, f), p)
  {
  }

  /** A step of a flusher moves the views of a live post around and changes their number nowhere. */
  lemma FlushMoves(b: Books, live: set<PostId>, f: Flusher, e: Step, p: PostId)
    requires Ready(f, e) && FlusherOk(live, f) && p in live
    ensures Moves(b, f, FlushNext(b, live, f, e), p)
  {
    match e
    case Rename(reply) => RenamingMoves(b, f, reply, p);
    case ReadDrain(_) =>
    case Apply(_) =>
    case Abort =>
    case Commit(reply) => CommitMoves(b, live, f, reply, p);
    case DeleteDrain(_) =>
    case MergeRead(_) => LoseMoves(b, f, p);
    case MergeField(q, reply) => LoseMoves(b, f, p); MergedFieldMoves(b, f, q, reply.Arrived?, p);
    case MergeDelete(_) =>
    case Crash => LoseMoves(b, f, p);
  }

  ghost predicate Kept(b: Books, live: set<PostId>, r: (Books, Flusher)) {
    BooksOk(r.0) && r.0.views.Keys == b.views.Keys && FlusherOk(live, r.1) && Known(b.views, r.1)
  }

  lemma CommitSane(b: Books, live: set<PostId>, f: Flusher, reply: Reply)
    requires BooksOk(b) && Ready(f, Commit(reply)) && FlusherOk(live, f) && Known(b.views, f)
    ensures Kept(b, live, CommitNext(b, f, reply))
  {
  }

  lemma LoseSane(b: Books, live: set<PostId>, f: Flusher)
    requires BooksOk(b) && FlusherOk(live, f) && Known(b.views, f)
    ensures Kept(b, live, Lose(b, f))
  {
  }

  lemma MergedFieldSane(b: Books, live: set<PostId>, f: Flusher, q: PostId, arrived: bool)
    requires BooksOk(b) && f.phase.Merging? && q in f.phase.left && FlusherOk(live, f) && Known(b.views, f)
    ensures Kept(b, live, MergedField(b, f, q, arrived))
  {
    var b' := b.(buffer := Add(b.buffer, q, f.phase.left[q]));
    var f' := f.(phase := Merging(f.phase.left - {q}));
    assert BooksOk(b') && FlusherOk(live, f') && Known(b'.views, f');
    LoseSane(b', live, f');
  }

  lemma RenameSane(b: Books, live: set<PostId>, f: Flusher, reply: Reply)
    requires BooksOk(b) && FlusherOk(live, f) && Known(b.views, f) && f.phase.Opened?
    ensures Kept(b, live, RenameNext(b, f, reply))
  {
  }

  lemma FlushSane(b: Books, live: set<PostId>, f: Flusher, e: Step)
    requires BooksOk(b) && Ready(f, e) && FlusherOk(live, f) && Known(b.views, f)
    ensures Kept(b, live, FlushNext(b, live, f, e))
  {
    match e
    case Rename(reply) => RenameSane(b, live, f, reply);
    case ReadDrain(_) =>
    case Apply(_) =>
    case Abort =>
    case Commit(reply) => CommitSane(b, live, f, reply);
    case DeleteDrain(_) =>
    case MergeRead(_) => LoseSane(b, live, f);
    case MergeField(q, reply) => LoseSane(b, live, f); MergedFieldSane(b, live, f, q, reply.Arrived?);
    case MergeDelete(_) =>
    case Crash => LoseSane(b, live, f);
  }

  // ---- every run -------------------------------------------------------------------------------------

  lemma SaneNext(s: State, e: Event)
    requires Sane(s) && Enabled(s, e)
    ensures Sane(Next(s, e))
  {
    match e
    case Flush(f, step) => FlushSane(s.books, s.live, s.flushers[f], step);
    case DeletePost(p) =>
    case _ =>
  }

  lemma BalancedNext(s: State, e: Event, p: PostId)
    requires Sane(s) && Enabled(s, e) && p in Next(s, e).live && (p in s.live ==> Balanced(s, p))
    ensures Balanced(Next(s, e), p)
  {
    match e
    case CreatePost(q) => if p == q { TotalAbsent(s.flushers, p); }
    case DeletePost(_) =>
    case Track(_) =>
    case TrackDirect(_, _) =>
    case StartFlush => TotalAppended(s.flushers, Flusher(Opened, map[]), p);
    case Flush(f, step) =>
      FlushMoves(s.books, s.live, s.flushers[f], step, p);
      TotalReplaced(s.flushers, f, Next(s, e).flushers[f], p);
  }

  lemma {:induction false} EveryRun(t: Trace)
    requires Legal(t)
    ensures Sane(Last(t)) && forall p :: p in Last(t).live ==> Balanced(Last(t), p)
  {
    if t.Then? {
      EveryRun(t.prev);
      var s := Last(t.prev);
      SaneNext(s, t.event);
      forall p | p in Next(s, t.event).live ensures Balanced(Next(s, t.event), p) { BalancedNext(s, t.event, p); }
    }
  }

  /** No command that took effect was taken for failed. */
  ghost predicate Unambiguous(t: Trace) {
    t.Then? ==>
      && Unambiguous(t.prev)
      && (t.event.TrackDirect? ==> !t.event.buffered)
      && (t.event.Flush? && t.event.step.Commit? ==> !t.event.step.reply.LostAfterEffect?)
  }

  /** No flusher crashed and every merge ran to its end. */
  ghost predicate Lossless(t: Trace) {
    t.Then? ==>
      && Lossless(t.prev)
      && (t.event.Flush? ==>
            && !t.event.step.Crash?
            && (t.event.step.MergeRead? ==> t.event.step.ok)
            && (t.event.step.MergeField? ==> t.event.step.reply.Arrived?))
  }

  lemma {:induction false} NothingDoubled(t: Trace)
    requires Legal(t) && Unambiguous(t)
    ensures Last(t).books.doubled == map[]
  {
    if t.Then? { NothingDoubled(t.prev); }
  }

  lemma {:induction false} NothingLost(t: Trace)
    requires Legal(t) && Lossless(t)
    ensures Last(t).books.lost == map[]
  {
    if t.Then? { NothingLost(t.prev); }
  }

  /** How often post `p` was viewed in the run. */
  ghost function Seen(t: Trace, p: PostId): nat {
    if t.Start? then 0 else
      Seen(t.prev, p) + if (t.event.Track? || t.event.TrackDirect?) && t.event.post == p then 1 else 0
  }

  lemma FlushRecordsNothing(b: Books, live: set<PostId>, f: Flusher, e: Step)
    requires Ready(f, e)
    ensures FlushNext(b, live, f, e).0.recorded == b.recorded
  {
  }

  /** The ledger holds every view of the run, one by one. */
  lemma {:induction false} RecordedIsSeen(t: Trace, p: PostId)
    requires Legal(t)
    ensures Get(Last(t).books.recorded, p) == Seen(t, p)
  {
    if t.Then? {
      RecordedIsSeen(t.prev, p);
      var s := Last(t.prev);
      if t.event.Flush? { FlushRecordsNothing(s.books, s.live, s.flushers[t.event.flusher], t.event.step); }
    }
  }

  /** The full account of a live post, whatever failed or overlapped. */
  lemma ViewsAreAccountedFor(t: Trace, p: PostId)
    requires Legal(t) && p in Last(t).live
    ensures Counted(Last(t), p) == Seen(t, p) - Get(Last(t).books.lost, p) + Get(Last(t).books.doubled, p)
    ensures Get(Last(t).books.lost, p) >= 0 && Get(Last(t).books.doubled, p) >= 0
  {
    EveryRun(t);
    RecordedIsSeen(t, p);
  }

  /** A crash or a failed merge may lose views; the flush never counts one twice. */
  lemma NeverCountedTwice(t: Trace, p: PostId)
    requires Legal(t) && p in Last(t).live && Unambiguous(t)
    ensures Counted(Last(t), p) <= Seen(t, p)
    ensures Get(Last(t).books.views, p) <= Seen(t, p)
  {
    EveryRun(t);
    RecordedIsSeen(t, p);
    NothingDoubled(t);
    TotalNotNegative(Last(t).flushers, p);
  }

  /** Without losses every view is in the table, in the buffer or in a drain. */
  lemma ViewsAreConserved(t: Trace, p: PostId)
    requires Legal(t) && p in Last(t).live && Unambiguous(t) && Lossless(t)
    ensures Counted(Last(t), p) == Seen(t, p)
  {
    EveryRun(t);
    RecordedIsSeen(t, p);
    NothingDoubled(t);
    NothingLost(t);
  }

  /** A commit took effect for `p` although the flusher saw it fail. */
  ghost predicate Ambiguous(f: Flusher, e: Step, p: PostId) {
    f.phase.Applying? && e == Commit(LostAfterEffect) && p in f.phase.hits
  }

  /** The flusher stops for good with views of `p` in its hands. */
  ghost predicate Drops(f: Flusher, e: Step, p: PostId) {
    p in Outstanding(f) &&
    match e
    case MergeRead(ok) => !ok
    case MergeField(q, reply) => reply.FailedBefore? || (reply.LostAfterEffect? && q != p)
    case Crash => true
    case _ => false
  }

  lemma FlushDoubles(b: Books, live: set<PostId>, f: Flusher, e: Step, p: PostId)
    requires Ready(f, e) && FlusherOk(live, f)
    ensures Get(FlushNext(b, live, f, e).0.doubled, p) >= Get(b.doubled, p)
    ensures Get(FlushNext(b, live, f, e).0.doubled, p) > Get(b.doubled, p) <==> Ambiguous(f, e, p)
  {
    if e.Commit? { assert FlushNext(b, live, f, e) == CommitNext(b, f, e.reply); }
  }

  lemma LoseLoses(b: Books, live: set<PostId>, f: Flusher, p: PostId)
    requires FlusherOk(live, f)
    ensures Get(Lose(b, f).0.lost, p) >= Get(b.lost, p)
    ensures Get(Lose(b, f).0.lost, p) > Get(b.lost, p) <==> p in Outstanding(f)
  {
  }

  lemma MergedLoses(b: Books, live: set<PostId>, f: Flusher, q: PostId, arrived: bool, p: PostId)
    requires FlusherOk(live, f) && f.phase.Merging? && q in f.phase.left
    ensures Get(MergedField(b, f, q, arrived).0.lost, p) >= Get(b.lost, p)
    ensures Get(MergedField(b, f, q, arrived).0.lost, p) > Get(b.lost, p) <==> !arrived && p in f.phase.left && p != q
  {
  }

  lemma FlushLoses(b: Books, live: set<PostId>, f: Flusher, e: Step, p: PostId)
    requires Ready(f, e) && FlusherOk(live, f)
    ensures Get(FlushNext(b, live, f, e).0.lost, p) >= Get(b.lost, p)
    ensures Get(FlushNext(b, live, f, e).0.lost, p) > Get(b.lost, p) <==> Drops(f, e, p)
  {
    match e
    case MergeRead(_) => LoseLoses(b, live, f, p);
    case MergeField(q, reply) =>
      if reply.FailedBefore? { LoseLoses(b, live, f, p); } else { MergedLoses(b, live, f, q, reply.Arrived?, p); }
    case Crash => LoseLoses(b, live, f, p);
    case Commit(reply) => assert FlushNext(b, live, f, e) == CommitNext(b, f, reply);
    case _ =>
  }

  /** What is counted for `p` beyond its views. */
  ghost function Surplus(t: Trace, p: PostId): int
    requires Legal(t)
  {
    Counted(Last(t), p) - Seen(t, p)
  }

  ghost predicate Doubles(s: State, e: Event, p: PostId)
    requires Enabled(s, e)
  {
    e == TrackDirect(p, true) || (e.Flush? && Ambiguous(s.flushers[e.flusher], e.step, p))
  }

  ghost predicate Loses(s: State, e: Event, p: PostId)
    requires Enabled(s, e)
  {
    e.Flush? && Drops(s.flushers[e.flusher], e.step, p)
  }

  /** The two accounts are what the surplus consists of. */
  lemma SurplusMoves(t: Trace, e: Event, p: PostId)
    requires Legal(t) && Enabled(Last(t), e) && p in Last(t).live && p in Next(Last(t), e).live
    ensures var b, b' := Last(t).books, Next(Last(t), e).books;
            && Surplus(Then(t, e), p) - Surplus(t, p)
               == (Get(b'.doubled, p) - Get(b.doubled, p)) - (Get(b'.lost, p) - Get(b.lost, p))
  {
    ViewsAreAccountedFor(t, p);
    ViewsAreAccountedFor(Then(t, e), p);
  }

  lemma AccountsMove(s: State, e: Event, p: PostId)
    requires Sane(s) && Enabled(s, e)
    ensures var b, b' := s.books, Next(s, e).books;
            && Get(b'.doubled, p) >= Get(b.doubled, p) && (Get(b'.doubled, p) > Get(b.doubled, p) <==> Doubles(s, e, p))
            && Get(b'.lost, p) >= Get(b.lost, p) && (Get(b'.lost, p) > Get(b.lost, p) <==> Loses(s, e, p))
  {
    if e.Flush? {
      assert FlusherOk(s.live, s.flushers[e.flusher]);
      FlushDoubles(s.books, s.live, s.flushers[e.flusher], e.step, p);
      FlushLoses(s.books, s.live, s.flushers[e.flusher], e.step, p);
    }
  }

  /** An event makes the count of a live post overtake its views exactly if it is a command
      that took effect for the post although its caller saw it fail. */
  lemma DoubledExactlyWhenAmbiguous(t: Trace, e: Event, p: PostId)
    requires Legal(t) && Enabled(Last(t), e) && p in Last(t).live && p in Next(Last(t), e).live
    ensures Surplus(Then(t, e), p) > Surplus(t, p) <==> Doubles(Last(t), e, p)
  {
    EveryRun(t);
    SurplusMoves(t, e, p);
    AccountsMove(Last(t), e, p);
  }

  /** An event makes it fall behind exactly if it stops a flusher that holds views of the post. */
  lemma LostExactlyWhenDropped(t: Trace, e: Event, p: PostId)
    requires Legal(t) && Enabled(Last(t), e) && p in Last(t).live && p in Next(Last(t), e).live
    ensures Surplus(Then(t, e), p) < Surplus(t, p) <==> Loses(Last(t), e, p)
  {
    EveryRun(t);
    SurplusMoves(t, e, p);
    AccountsMove(Last(t), e, p);
  }

  // ---- a view that is counted twice --------------------------------------------------------------------

  /** Post 0 with one recorded view, and one flusher. */
  ghost function OneView(views: nat, buffer: Counts, doubled: Counts, f: Flusher): State {
    State(Books(map[0 := views], buffer, map[0 := 1], map[], doubled), {0}, [f])
  }

  lemma Flushes(t: Trace, e: Step) returns (t': Trace)
    requires Legal(t) && Enabled(Last(t), Flush(0, e))
    ensures Legal(t') && Last(t') == Next(Last(t), Flush(0, e))
  {
    t' := Then(t, Flush(0, e));
  }

  lemma OneViewRenamed() returns (t: Trace)
    ensures Legal(t) && Last(t) == OneView(0, map[], map[], Flusher(Renamed, map[0 := 1]))
  {
    var t1 := Then(Start, CreatePost(0));
    var t2 := Then(t1, Track(0));
    var t3 := Then(t2, StartFlush);
    assert Legal(t1) && Legal(t2) && Legal(t3);
    assert Last(t3) == OneView(0, map[0 := 1], map[], Flusher(Opened, map[]));
    t := Flushes(t3, Rename(Arrived));
  }

  lemma OneViewApplied() returns (t: Trace)
    ensures Legal(t) && Last(t) == OneView(0, map[], map[], Flusher(Applying(map[0 := 1], {0}, {0}), map[0 := 1]))
  {
    var t0 := OneViewRenamed();
    assert 0 in Last(t0).flushers[0].drain;
    var t1 := Flushes(t0, ReadDrain(true));
    assert Last(t1) == OneView(0, map[], map[], Flusher(Applying(map[0 := 1], {}, {}), map[0 := 1]));
    t := Flushes(t1, Apply(0));
    assert {} + {0} == {0};
  }

  lemma OneViewCommitted() returns (t: Trace)
    ensures Legal(t) && Last(t) == OneView(1, map[], map[0 := 1], Flusher(Failing, map[0 := 1]))
  {
    var t0 := OneViewApplied();
    OneViewSums();
    t := Flushes(t0, Commit(LostAfterEffect));
  }

  lemma OneViewSums()
    ensures Only(map[0 := 1], {0}) == map[0 := 1] && Plus(map[], map[0 := 1]) == map[0 := 1]
    ensures Plus(map[0 := 0], map[0 := 1]) == map[0 := 1]
  {
  }

  /** A commit whose reply is lost is merged back although it took effect: one view counts as two. */
  lemma LostReplyCountsTwice() returns (t: Trace)
    ensures Legal(t) && 0 in Last(t).live && Seen(t, 0) == 1 && Counted(Last(t), 0) == 2
  {
    var t0 := OneViewCommitted();
    var t1 := Flushes(t0, MergeRead(true));
    assert Last(t1) == OneView(1, map[], map[0 := 1], Flusher(Merging(map[0 := 1]), map[0 := 1]));
    t := Flushes(t1, MergeField(0, Arrived));
    assert map[0 := 1] - {0} == map[];
    assert Last(t) == OneView(1, map[0 := 1], map[0 := 1], Flusher(Merging(map[]), map[0 := 1]));
    var fs := [Flusher(Merging(map[]), map[0 := 1])];
    assert fs[1..] == [] && Total(fs, 0) == 0;
    RecordedIsSeen(t, 0);
  }
}
