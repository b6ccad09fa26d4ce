/**
 * The Redis lease lock (SET NX EX with a random token, compare-and-delete to release) and its two
 * users: the periodic job runner and the idempotency hooks of post creation. Any number of clients
 * interleave with a clock; one event is one Redis command or the end of the guarded work. A client
 * makes one attempt, so its id stands for its token.
 */
module Leases {
  type Key = nat
  type ClientId = nat

  const RESULT_SECONDS := 3600

  datatype Kind = Job | PostCreate

  /** How an attempt ended. */
  datatype Outcome = Skipped | Conflict | Replayed | Released | ReleaseFailed | RanUnlocked | Cancelled

  datatype Freed = NotYet | Freed | NotFreed

  datatype Phase =
    | Asking                                   // a post request before the GET of the stored result
    | Locking                                  // about to SET NX
    | Guarded(until: int)                      // acquired; the lease runs out at `until`
    | Unguarded                                // Redis failed; working without knowing the lock
    | Storing(stored: bool, release: Freed)    // after success: store and release run in parallel
    | Releasing                                // after failure, and after every job
    | Done(outcome: Outcome)

  datatype Client = Client(kind: Kind, key: Key, ttl: nat, phase: Phase)
  datatype Lease = Lease(token: ClientId, until: int)

  /** `locks` and `results` may keep expired entries; Redis does not show them any more. */
  datatype State = State(now: int, locks: map<Key, Lease>, results: map<Key, int>, clients: map<ClientId, Client>)

  datatype Reply = Arrived | LostAfterEffect | FailedBefore

  datatype Step =
    | Get(reply: Reply)
    | SetNx(reply: Reply)
    | Work(ok: bool)
    | Store(reply: Reply)
    | Release(reply: Reply)
    | Cancel

  datatype Event =
    | Tick(seconds: nat)
    | Arrive(client: ClientId, kind: Kind, key: Key, ttl: nat)
    | Act(client: ClientId, step: Step)

  predicate Locked(s: State, k: Key) { k in s.locks && s.now < s.locks[k].until }

  predicate HasResult(s: State, k: Key) { k in s.results && s.now < s.results[k] }

  predicate Ready(c: Client, e: Step) {
    match e
    case Get(_) => c.phase.Asking?
    case SetNx(_) => c.phase.Locking?
    case Work(_) => c.phase.Guarded? || c.phase.Unguarded?
    case Store(_) => c.phase.Storing? && !c.phase.stored
    case Release(_) => c.phase.Releasing? || (c.phase.Storing? && c.phase.release.NotYet?)
    case Cancel => !c.phase.Done?
  }

  predicate Enabled(s: State, e: Event) {
    match e
    case Tick(_) => true
    case Arrive(c, _, _, ttl) => c !in s.clients && ttl > 0
    case Act(c, step) => c in s.clients && Ready(s.clients[c], step)
  }

  function At(s: State, c: ClientId, phase: Phase): State
    requires c in s.clients
  {
    s.(clients := s.clients[c := s.clients[c].(phase := phase)])
  }

  function AfterSuccess(stored: bool, release: Freed): Phase {
    if !stored || release.NotYet? then Storing(stored, release)
    else Done(if release.Freed? then Released else ReleaseFailed)
  }

  /** The server side of SET NX: nothing happens while a live entry exists. */
  function Acquire(s: State, c: ClientId): State
    requires c in s.clients
  {
    var k := s.clients[c].key;
    if Locked(s, k) then s else s.(locks := s.locks[k := Lease(c, s.now + s.clients[c].ttl)])
  }

  /** The server side of the release script: delete only one's own token. */
  function CompareAndDelete(s: State, c: ClientId): State
    requires c in s.clients
  {
    var k := s.clients[c].key;
    if Locked(s, k) && s.locks[k].token == c then s.(locks := s.locks - {k}) else s
  }

  function SetNxNext(s: State, c: ClientId, reply: Reply): State
    requires c in s.clients
  {
    var k := s.clients[c].key;
    match reply
    case Arrived =>
      if Locked(s, k) then At(s, c, Done(if s.clients[c].kind.Job? then Skipped else Conflict))
      else At(Acquire(s, c), c, Guarded(s.now + s.clients[c].ttl))
    case LostAfterEffect => At(Acquire(s, c), c, Unguarded)
    case FailedBefore => At(s, c, Unguarded)
  }

  function ReleaseNext(s: State, c: ClientId, reply: Reply): State
    requires c in s.clients && Ready(s.clients[c], Release(reply))
  {
    var s' := if reply.FailedBefore? then s else CompareAndDelete(s, c);
    var phase := s.clients[c].phase;
    At(s', c, if phase.Storing? then AfterSuccess(phase.stored, if reply.FailedBefore? then NotFreed else Freed)
              else Done(if reply.FailedBefore? then ReleaseFailed else Released))
  }

  function Next(s: State, e: Event): State
    requires Enabled(s, e)
  {
    match e
    case Tick(seconds) => s.(now := s.now + seconds)
    case Arrive(c, kind, key, ttl) =>
      s.(clients := s.clients[c := Client(kind, key, ttl, if kind.Job? then Locking else Asking)])
    case Act(c, step) => ActNext(s, c, step)
  }

  function ActNext(s: State, c: ClientId, e: Step): State
    requires c in s.clients && Ready(s.clients[c], e)
  {
    var cl := s.clients[c];
    match e
    case Get(reply) =>
      // A failed GET ends the hook: the request goes on unguarded and never tries the lock.
      At(s, c, if !reply.Arrived? then Unguarded else if HasResult(s, cl.key) then Done(Replayed) else Locking)
    case SetNx(reply) => SetNxNext(s, c, reply)
    case Work(ok) =>
      At(s, c, if cl.kind.PostCreate? then (if ok then Storing(false, NotYet) else Releasing)
               else if cl.phase.Guarded? then Releasing else Done(RanUnlocked))
    case Store(reply) =>
      var s' := if reply.FailedBefore? then s else s.(results := s.results[cl.key := s.now + RESULT_SECONDS]);
      At(s', c, AfterSuccess(true, cl.phase.release))
    case Release(reply) => ReleaseNext(s, c, reply)
    case Cancel => At(s, c, Done(Cancelled))
  }

  datatype Trace = Start(now: int) | Then(prev: Trace, event: Event)

  ghost predicate Legal(t: Trace)
    decreases t, 0
  {
    t.Start? || (Legal(t.prev) && Enabled(Last(t.prev), t.event))
  }

  ghost function Last(t: Trace): State
    requires Legal(t)
    decreases t, 1
  {
    match t
    case Start(now) => State(now, map[], map[], map[])
    case Then(prev, e) => Next(Last(prev), e)
  }
}

module LeaseSafety {
  import opened Leases

  /** Client `c` has its token under its key, expired or not. */
  ghost predicate Holds(s: State, c: ClientId)
    requires c in s.clients
  {
    s.clients[c].key in s.locks && s.locks[s.clients[c].key].token == c
  }

  /** The phases in which the token may still be there. */
  ghost predicate MayHold(p: Phase) {
    match p
    case Asking => false
    case Locking => false
    case Storing(_, release) => !release.Freed?
    case Done(outcome) => outcome.ReleaseFailed? || outcome.RanUnlocked? || outcome.Cancelled?
    case _ => true
  }

  ghost predicate ClientOk(s: State, c: ClientId)
    requires c in s.clients
  {
    && (Holds(s, c) && Locked(s, s.clients[c].key) ==> MayHold(s.clients[c].phase))
    && (s.clients[c].phase.Guarded? && s.now < s.clients[c].phase.until ==>
          s.clients[c].key in s.locks && s.locks[s.clients[c].key] == Lease(c, s.clients[c].phase.until))
  }

  ghost predicate Inv(s: State) {
    && (forall c :: c in s.clients ==> ClientOk(s, c))
    && (forall k :: k in s.locks ==> s.locks[k].token in s.clients)
  }

  lemma KeepSetNx(s: State, c: ClientId, reply: Reply)
    requires Inv(s) && c in s.clients && s.clients[c].phase.Locking?
    ensures Inv(SetNxNext(s, c, reply))
  {
  }

  lemma KeepRelease(s: State, c: ClientId, reply: Reply)
    requires Inv(s) && c in s.clients && Ready(s.clients[c], Release(reply))
    ensures Inv(ReleaseNext(s, c, reply))
  {
  }

  lemma KeepAct(s: State, c: ClientId, e: Step)
    requires Inv(s) && c in s.clients && Ready(s.clients[c], e)
    ensures Inv(ActNext(s, c, e))
  {
    match e
    case SetNx(reply) => KeepSetNx(s, c, reply);
    case Release(reply) => KeepRelease(s, c, reply);
    case _ =>
  }

  lemma {:induction false} EveryRun(t: Trace)
    requires Legal(t)
    ensures Inv(Last(t))
  {
    if t.Then? {
      EveryRun(t.prev);
      if t.event.Act? { KeepAct(Last(t.prev), t.event.client, t.event.step); }
    }
  }

  /** Two clients never work on the same key with leases that have both not run out. */
  lemma MutualExclusion(t: Trace, a: ClientId, b: ClientId)
    requires Legal(t) && a in Last(t).clients && b in Last(t).clients && a != b
    requires Last(t).clients[a].phase.Guarded? && Last(t).clients[b].phase.Guarded?
    requires Last(t).clients[a].key == Last(t).clients[b].key
    ensures Last(t).now >= Last(t).clients[a].phase.until || Last(t).now >= Last(t).clients[b].phase.until
  {
    EveryRun(t);
    assert ClientOk(Last(t), a) && ClientOk(Last(t), b);
  }

  /** A live lock changes or goes away only in a release by the client whose token it holds. */
  lemma OnlyTheOwnerUnlocks(t: Trace, e: Event, k: Key)
    requires Legal(t) && Enabled(Last(t), e) && Locked(Last(t), k)
    requires k !in Next(Last(t), e).locks || Next(Last(t), e).locks[k] != Last(t).locks[k]
    ensures e.Act? && e.client == Last(t).locks[k].token && e.step.Release? && k !in Next(Last(t), e).locks
  {
  }

  /**
   * Where the token is after the attempt. Every post request whose release got through, and every
   * attempt that was turned away, leaves nothing behind, also when the SET took effect and its
   * reply was lost. What remains are a failed release, a cancellation, and a job that went on
   * without its lock.
   */
  lemma NoTokenLeftBehind(t: Trace, c: ClientId)
    requires Legal(t) && c in Last(t).clients && Last(t).clients[c].phase.Done?
    requires Last(t).clients[c].phase.outcome !in {ReleaseFailed, RanUnlocked, Cancelled}
    ensures Locked(Last(t), Last(t).clients[c].key) ==> Last(t).locks[Last(t).clients[c].key].token != c
  {
    EveryRun(t);
    assert ClientOk(Last(t), c);
  }

  // ---- replay --------------------------------------------------------------------------------------

  /** `t` goes on from `start`. */
  ghost predicate Extends(t: Trace, start: Trace) {
    t == start || (t.Then? && Extends(t.prev, start))
  }

  lemma {:induction false} ResultsAreBounded(t: Trace, k: Key)
    requires Legal(t) && k in Last(t).results
    ensures Last(t).results[k] <= Last(t).now + RESULT_SECONDS
  {
    if k in Last(t.prev).results { ResultsAreBounded(t.prev, k); }
  }

  /** A stored result is only ever replaced by one that lives longer. */
  lemma {:induction false} ResultsStay(t: Trace, start: Trace, k: Key)
    requires Legal(t) && Legal(start) && Extends(t, start) && k in Last(start).results
    ensures Last(t).now >= Last(start).now
    ensures k in Last(t).results && Last(t).results[k] >= Last(start).results[k]
  {
    if t != start {
      ResultsStay(t.prev, start, k);
      ResultsAreBounded(start, k);
    }
  }

  /** An attempt that is over never acts again. */
  lemma {:induction false} DoneIsFinal(t: Trace, start: Trace, c: ClientId)
    requires Legal(t) && Legal(start) && Extends(t, start)
    requires c in Last(start).clients && Last(start).clients[c].phase.Done?
    ensures c in Last(t).clients && Last(t).clients[c] == Last(start).clients[c]
  {
    if t != start {
      DoneIsFinal(t.prev, start, c);
      DoneStays(Last(t.prev), t.event, c);
    }
  }

  lemma DoneStays(s: State, e: Event, c: ClientId)
    requires Enabled(s, e) && c in s.clients && s.clients[c].phase.Done?
    ensures c in Next(s, e).clients && Next(s, e).clients[c] == s.clients[c]
  {
    if e.Act? { assert e.client != c; }
  }

  /**
   * A post request that asks for the result after it was stored and before it expires is answered
   * from it: the attempt is over in that step, so it never comes to the work.
   */
  lemma StoredResultIsReplayed(stored: Trace, t: Trace, c: ClientId)
    requires Legal(stored) && stored.Then? && stored.event.Act? && stored.event.step.Store?
    requires !stored.event.step.reply.FailedBefore?
    requires Legal(t) && Extends(t, stored) && Last(t).now < Last(stored).now + RESULT_SECONDS
    requires c in Last(t).clients && Last(t).clients[c].phase.Asking?
    requires Last(t).clients[c].key == Last(stored.prev).clients[stored.event.client].key
    ensures Legal(Then(t, Act(c, Get(Arrived))))
    ensures Last(Then(t, Act(c, Get(Arrived)))).clients[c].phase == Done(Replayed)
    ensures forall u :: Legal(u) && Extends(u, Then(t, Act(c, Get(Arrived)))) ==>
              c in Last(u).clients && Last(u).clients[c].phase == Done(Replayed)
  {
    var k := Last(t).clients[c].key;
    ResultsStay(t, stored, k);
    var after := Then(t, Act(c, Get(Arrived)));
    assert Legal(after) && Last(after).clients[c].phase == Done(Replayed);
    forall u | Legal(u) && Extends(u, after)
      ensures c in Last(u).clients && Last(u).clients[c].phase == Done(Replayed)
    {
      DoneIsFinal(u, after, c);
    }
  }

  // ---- who gets the lock -----------------------------------------------------------------------------

  lemma {:induction false} LifetimesArePositive(t: Trace, c: ClientId)
    requires Legal(t) && c in Last(t).clients
    ensures Last(t).clients[c].ttl > 0
  {
    if t.Then? && c in Last(t.prev).clients { LifetimesArePositive(t.prev, c); }
  }

  /** An answered SET NX lets the client in if and only if no lease was live, and then leaves its token for `ttl`. */
  lemma AnsweredSetDecides(t: Trace, c: ClientId)
    requires Legal(t) && Enabled(Last(t), Act(c, SetNx(Arrived)))
    ensures var s, s', k := Last(t), Next(Last(t), Act(c, SetNx(Arrived))), Last(t).clients[c].key;
            && (s'.clients[c].phase.Guarded? <==> !Locked(s, k))
            && (!Locked(s, k) ==> Locked(s', k) && s'.locks[k] == Lease(c, s.now + s.clients[c].ttl))
            && (!Locked(s, k) ==> s'.clients[c].phase == Guarded(s.now + s.clients[c].ttl))
            && (Locked(s, k) ==> s'.clients[c].phase.Done? && s'.locks == s.locks)
  {
    LifetimesArePositive(t, c);
  }

  /** An attempt is turned away only while the lease of another client is live. */
  lemma {:induction false} TurnedAwayByAnother(t: Trace, c: ClientId) returns (p: Trace)
    requires Legal(t) && c in Last(t).clients && Last(t).clients[c].phase in {Done(Skipped), Done(Conflict)}
    ensures p.Then? && Legal(p) && Extends(t, p) && p.event == Act(c, SetNx(Arrived))
    ensures var s, k := Last(p.prev), Last(t).clients[c].key;
            c in s.clients && s.clients[c].key == k && Locked(s, k) && s.locks[k].token != c
  {
    var s := Last(t.prev);
    if c in s.clients && s.clients[c].phase.Done? {
      DoneStays(s, t.event, c);
      p := TurnedAwayByAnother(t.prev, c);
    } else {
      p := t;
      EveryRun(t.prev);
      assert ClientOk(s, c);
    }
  }

  // ---- where a replayed result comes from --------------------------------------------------------------

  /** The last event of `q` stored a result under `k`. */
  ghost predicate Stores(q: Trace, k: Key)
    requires Legal(q)
  {
    && q.Then? && q.event.Act? && q.event.step.Store? && !q.event.step.reply.FailedBefore?
    && Last(q.prev).clients[q.event.client].key == k
  }

  lemma {:induction false} ResultWasStored(t: Trace, k: Key) returns (q: Trace)
    requires Legal(t) && k in Last(t).results
    ensures Legal(q) && Extends(t, q) && Stores(q, k) && Last(t).results[k] == Last(q).now + RESULT_SECONDS
  {
    if Stores(t, k) {
      q := t;
    } else {
      q := ResultWasStored(t.prev, k);
    }
  }

  /** An answer is replayed only from a result stored under the same key less than an hour before. */
  lemma {:induction false} ReplayedWasStored(t: Trace, c: ClientId) returns (p: Trace, q: Trace)
    requires Legal(t) && c in Last(t).clients && Last(t).clients[c].phase == Done(Replayed)
    ensures p.Then? && Legal(p) && Extends(t, p) && p.event == Act(c, Get(Arrived))
    ensures Legal(q) && Extends(p.prev, q) && Stores(q, Last(t).clients[c].key)
    ensures Last(p.prev).now < Last(q).now + RESULT_SECONDS
  {
    var s := Last(t.prev);
    if c in s.clients && s.clients[c].phase.Done? {
      DoneStays(s, t.event, c);
      p, q := ReplayedWasStored(t.prev, c);
    } else {
      p := t;
      q := ResultWasStored(t.prev, s.clients[c].key);
    }
  }

  // ---- what an outcome tells -----------------------------------------------------------------------------

  /** How often `c` has done its work. */
  ghost function Works(t: Trace, c: ClientId): nat {
    if t.Start? then 0 else
      Works(t.prev, c) + if t.event.Act? && t.event.client == c && t.event.step.Work? then 1 else 0
  }

  ghost predicate WasCancelled(t: Trace, c: ClientId) {
    t.Then? && (WasCancelled(t.prev, c) || t.event == Act(c, Cancel))
  }

  /** The work is done exactly once on the way to a release, and not at all by who is turned away or replayed. */
  ghost predicate Tells(t: Trace, c: ClientId)
    requires Legal(t)
  {
    if c !in Last(t).clients then Works(t, c) == 0 && !WasCancelled(t, c) else
      var phase := Last(t).clients[c].phase;
      && (phase == Done(Cancelled) <==> WasCancelled(t, c)) && Works(t, c) <= 1
      && match phase
         case Storing(_, _) => Works(t, c) == 1
         case Releasing => Works(t, c) == 1
         case Done(Cancelled) => true
         case Done(outcome) => Works(t, c) == if outcome in {Skipped, Conflict, Replayed} then 0 else 1
         case _ => Works(t, c) == 0
  }

  lemma {:induction false} OutcomesTell(t: Trace, c: ClientId)
    requires Legal(t)
    ensures Tells(t, c)
  {
    if t.Then? { OutcomesTell(t.prev, c); }
  }

  ghost predicate WasGuarded(t: Trace, c: ClientId)
    requires Legal(t)
  {
    (c in Last(t).clients && Last(t).clients[c].phase.Guarded?) || (t.Then? && WasGuarded(t.prev, c))
  }

  /** Inside the lock, on the way out of it, or over with a release or a cancellation. */
  ghost predicate Inside(p: Phase) {
    p.Guarded? || p.Storing? || p.Releasing? || p in {Done(Released), Done(ReleaseFailed), Done(Cancelled)}
  }

  lemma StaysInside(s: State, e: Event, c: ClientId)
    requires Enabled(s, e) && c in s.clients && Inside(s.clients[c].phase)
    ensures c in Next(s, e).clients && Inside(Next(s, e).clients[c].phase)
  {
  }

  /** Who has held the lock ends with a release, got through or not, unless cancelled. */
  lemma {:induction false} HoldersRelease(t: Trace, c: ClientId)
    requires Legal(t) && WasGuarded(t, c)
    ensures c in Last(t).clients && Inside(Last(t).clients[c].phase)
  {
    if !(c in Last(t).clients && Last(t).clients[c].phase.Guarded?) {
      HoldersRelease(t.prev, c);
      StaysInside(Last(t.prev), t.event, c);
    }
  }

  ghost predicate Succeeded(t: Trace, c: ClientId) {
    t.Then? && (Succeeded(t.prev, c) || t.event == Act(c, Work(true)))
  }

  ghost predicate TriedToStore(t: Trace, c: ClientId) {
    t.Then? && (TriedToStore(t.prev, c) || (t.event.Act? && t.event.client == c && t.event.step.Store?))
  }

  /** What the phase of a post request says about its work and its result. */
  ghost predicate Remembers(t: Trace, c: ClientId)
    requires Legal(t)
  {
    if c !in Last(t).clients then !Succeeded(t, c) && !TriedToStore(t, c) else
      var cl := Last(t).clients[c];
      && (TriedToStore(t, c) ==> Succeeded(t, c))
      && (cl.phase.Asking? || cl.phase.Locking? || cl.phase.Guarded? || cl.phase.Unguarded? ==> !Succeeded(t, c))
      && (cl.phase.Storing? ==> cl.kind.PostCreate? && Succeeded(t, c) && (cl.phase.stored <==> TriedToStore(t, c)))
      && (cl.phase.Releasing? && cl.kind.PostCreate? ==> !Succeeded(t, c))
      && (cl.kind.PostCreate? && cl.phase.Done? && cl.phase.outcome in {Released, ReleaseFailed} && Succeeded(t, c) ==>
            TriedToStore(t, c))
  }

  /** Only the result of work that succeeded is stored, and no such request ends, uncancelled, without trying to. */
  lemma {:induction false} StoresWhatSucceeded(t: Trace, c: ClientId)
    requires Legal(t)
    ensures Remembers(t, c)
  {
    if t.Then? {
      StoresWhatSucceeded(t.prev, c);
      OutcomesTell(t.prev, c);
    }
  }

  // ---- an attempt on a free key --------------------------------------------------------------------------

  lemma Does(t: Trace, c: ClientId, e: Step) returns (t': Trace)
    requires Legal(t) && c in Last(t).clients && Ready(Last(t).clients[c], e)
    ensures Legal(t') && Last(t') == ActNext(Last(t), c, e)
  {
    t' := Then(t, Act(c, e));
  }

  lemma Arrives(t: Trace, c: ClientId, kind: Kind, k: Key, ttl: nat) returns (t': Trace)
    requires Legal(t) && c !in Last(t).clients && ttl > 0
    ensures Legal(t') && Last(t') == Next(Last(t), Arrive(c, kind, k, ttl))
  {
    t' := Then(t, Arrive(c, kind, k, ttl));
  }

  /** Client `c` holds the lock of `k` that was free in `s`, and nothing else has changed. */
  ghost predicate Entered(s: State, s': State, c: ClientId, kind: Kind, k: Key, ttl: nat) {
    && s'.now == s.now && s'.results == s.results && s'.locks == s.locks[k := Lease(c, s.now + ttl)]
    && s'.clients == s.clients[c := Client(kind, k, ttl, Guarded(s.now + ttl))]
  }

  lemma Enters(t: Trace, c: ClientId, kind: Kind, k: Key, ttl: nat) returns (t': Trace)
    requires Legal(t) && c !in Last(t).clients && ttl > 0 && !Locked(Last(t), k)
    requires kind.PostCreate? ==> !HasResult(Last(t), k)
    ensures Legal(t') && Entered(Last(t), Last(t'), c, kind, k, ttl)
  {
    var t1 := Arrives(t, c, kind, k, ttl);
    var t2 := t1;
    if kind.PostCreate? { t2 := Does(t1, c, Get(Arrived)); }
    t' := Does(t2, c, SetNx(Arrived));
    assert Last(t').clients == Last(t).clients[c := Client(kind, k, ttl, Guarded(Last(t).now + ttl))];
  }

  /** A job that finds its key free can run and leaves it free. */
  lemma JobCanRun(t: Trace, c: ClientId, k: Key, ttl: nat) returns (t': Trace)
    requires Legal(t) && c !in Last(t).clients && ttl > 0 && !Locked(Last(t), k)
    ensures Legal(t') && c in Last(t').clients && Last(t').clients[c].phase == Done(Released) && !Locked(Last(t'), k)
    ensures Works(t', c) == 1
  {
    var t1 := Enters(t, c, Job, k, ttl);
    var t2 := Does(t1, c, Work(true));
    t' := Does(t2, c, Release(Arrived));
    OutcomesTell(t', c);
  }

  /** A first post request can create its post, leaves the result for the next one, and leaves the key free. */
  lemma PostCanBeCreated(t: Trace, c: ClientId, k: Key, ttl: nat) returns (t': Trace)
    requires Legal(t) && c !in Last(t).clients && ttl > 0 && !Locked(Last(t), k) && !HasResult(Last(t), k)
    ensures Legal(t') && c in Last(t').clients && Last(t').clients[c].phase == Done(Released) && !Locked(Last(t'), k)
    ensures HasResult(Last(t'), k) && Works(t', c) == 1
  {
    var t1 := Enters(t, c, PostCreate, k, ttl);
    var t2 := Does(t1, c, Work(true));
    var t3 := Does(t2, c, Store(Arrived));
    t' := Does(t3, c, Release(Arrived));
    OutcomesTell(t', c);
  }
}
