/**
 * Direct messages across instances. The sending instance serves its own sockets and publishes an
 * envelope; every other instance that is subscribed serves its sockets when its listener gets to
 * the envelope. Local sends, the publication and the listeners run concurrently; one event is one
 * of their steps, and every step may also fail.
 */
module Fanout {
  type Instance = nat
  type User = nat
  type Socket = nat
  type Dm = nat

  datatype Owner = Owner(instance: Instance, user: User)
  datatype Sent = Sent(origin: Instance, peer: User, sender: User)

  /** One call of send_personal_message at an instance: for the peer, or for the sender as the second target. */
  datatype Job = Job(dm: Dm, instance: Instance, second: bool)

  datatype State = State(
    owners: map<Socket, Owner>, open: set<Socket>, sent: map<Dm, Sent>, published: set<Dm>,
    inbox: set<(Instance, Dm)>, jobs: set<Job>, delivered: multiset<(Socket, Dm)>)

  datatype Event =
    | Connect(socket: Socket, owner: Owner)
    | Disconnect(socket: Socket)
    | Send(dm: Dm, message: Sent)
    | Publish(dm: Dm, subscribed: set<Instance>)
    | Listen(instance: Instance, dm: Dm)
    | LoseEnvelope(instance: Instance, dm: Dm)
    | Run(job: Job, reached: set<Socket>)
    | LoseJob(job: Job)

  function Target(m: Sent, second: bool): User { if second then m.sender else m.peer }

  /** The sockets a job addresses. */
  function Addressed(s: State, job: Job): set<Socket>
    requires job.dm in s.sent
  {
    set x | x in s.open && x in s.owners && s.owners[x] == Owner(job.instance, Target(s.sent[job.dm], job.second))
  }

  function Jobs(dm: Dm, i: Instance): set<Job> { {Job(dm, i, false), Job(dm, i, true)} }

  predicate Enabled(s: State, e: Event) {
    match e
    case Connect(x, o) => x !in s.owners
    case Disconnect(x) => x in s.open
    case Send(dm, m) => dm !in s.sent
    case Publish(dm, _) => dm in s.sent && dm !in s.published
    case Listen(i, dm) => (i, dm) in s.inbox && dm in s.sent
    case LoseEnvelope(i, dm) => (i, dm) in s.inbox
    case Run(job, reached) => job in s.jobs && job.dm in s.sent && reached <= Addressed(s, job)
    case LoseJob(job) => job in s.jobs
  }

  function Next(s: State, e: Event): State
    requires Enabled(s, e)
  {
    match e
    case Connect(x, o) => s.(owners := s.owners[x := o], open := s.open + {x})
    case Disconnect(x) => s.(open := s.open - {x})
    case Send(dm, m) => s.(sent := s.sent[dm := m], jobs := s.jobs + Jobs(dm, m.origin))
    case Publish(dm, to) =>
      // A failed publication reaches nobody.
      s.(published := s.published + {dm}, inbox := s.inbox + set i | i in to :: (i, dm))
    case Listen(i, dm) =>
      // The listener skips what its own instance published.
      s.(inbox := s.inbox - {(i, dm)}, jobs := if s.sent[dm].origin == i then s.jobs else s.jobs + Jobs(dm, i))
    case LoseEnvelope(i, dm) => s.(inbox := s.inbox - {(i, dm)})
    case Run(job, reached) =>
      s.(jobs := s.jobs - {job}, delivered := s.delivered + multiset(set x | x in reached :: (x, job.dm)))
    case LoseJob(job) => s.(jobs := s.jobs - {job})
  }

  datatype Trace = Start | Then(prev: Trace, event: Event)

  ghost predicate Legal(t: Trace)
    decreases t, 0
  {
    t.Start? || (Legal(t.prev) && Enabled(Last(t.prev), t.event))
  }

  ghost function Last(t: Trace): State
    requires Legal(t)
    decreases t, 1
  {
    match t
    case Start => State(map[], {}, map[], {}, {}, {}, multiset{})
    case Then(prev, e) => Next(Last(prev), e)
  }

  // ---- how often a socket can be served ------------------------------------------------------------------------

  function One(b: bool): nat { if b then 1 else 0 }

  /** How many of the two targets a user is. */
  function Aimed(m: Sent, u: User): nat { One(m.peer == u) + One(m.sender == u) }

  /** How many jobs at an instance are still to address a user. */
  function Waiting(s: State, dm: Dm, o: Owner): nat
    requires dm in s.sent
  {
    One(Job(dm, o.instance, false) in s.jobs && s.sent[dm].peer == o.user) +
    One(Job(dm, o.instance, true) in s.jobs && s.sent[dm].sender == o.user)
  }

  /** Nothing has been done for the message at this instance. */
  ghost predicate Untouched(s: State, dm: Dm, i: Instance) {
    && Job(dm, i, false) !in s.jobs && Job(dm, i, true) !in s.jobs
    && forall x :: x in s.owners && s.owners[x].instance == i ==> s.delivered[(x, dm)] == 0
  }

  ghost predicate Inv(s: State) {
    && (forall j :: j in s.jobs ==> j.dm in s.sent)
    && (forall i, dm :: (i, dm) in s.inbox ==>
          dm in s.sent && dm in s.published && (i != s.sent[dm].origin ==> Untouched(s, dm, i)))
    && (forall dm, i :: dm in s.sent && dm !in s.published && i != s.sent[dm].origin ==> Untouched(s, dm, i))
    && (forall dm, i :: dm !in s.sent ==> Untouched(s, dm, i))
    && (forall x, dm :: (x, dm) in s.delivered ==> x in s.owners)
    && (forall x, dm :: x in s.owners && dm in s.sent ==>
          s.delivered[(x, dm)] + Waiting(s, dm, s.owners[x]) <= Aimed(s.sent[dm], s.owners[x].user))
  }

  lemma KeepConnect(s: State, x: Socket, o: Owner)
    requires Inv(s) && x !in s.owners
    ensures Inv(Next(s, Connect(x, o)))
  {
    var s' := Next(s, Connect(x, o));
    forall dm: Dm ensures s.delivered[(x, dm)] == 0 { assert (x, dm) !in s.delivered; }
    forall d: Dm, i: Instance | Untouched(s, d, i) ensures Untouched(s', d, i) {}
  }

  lemma KeepSend(s: State, dm: Dm, m: Sent)
    requires Inv(s) && dm !in s.sent
    ensures Inv(Next(s, Send(dm, m)))
  {
    var s' := Next(s, Send(dm, m));
    forall i | i != m.origin ensures Untouched(s', dm, i) { assert Untouched(s, dm, i); }
    forall x | x in s.owners ensures s'.delivered[(x, dm)] == 0 { assert Untouched(s, dm, s.owners[x].instance); }
    forall d: Dm, i: Instance | d != dm && Untouched(s, d, i) ensures Untouched(s', d, i) {}
  }

  lemma KeepPublish(s: State, dm: Dm, to: set<Instance>)
    requires Inv(s) && Enabled(s, Publish(dm, to))
    ensures Inv(Next(s, Publish(dm, to)))
  {
    var s' := Next(s, Publish(dm, to));
    forall d: Dm, i: Instance | Untouched(s, d, i) ensures Untouched(s', d, i) {}
  }

  lemma KeepListen(s: State, i: Instance, dm: Dm)
    requires Inv(s) && Enabled(s, Listen(i, dm))
    ensures Inv(Next(s, Listen(i, dm)))
  {
    var s' := Next(s, Listen(i, dm));
    if s.sent[dm].origin == i {
      KeepLoss(s, s');
    } else {
      assert Untouched(s, dm, i);
      forall d: Dm, j: Instance | (d != dm || j != i) && Untouched(s, d, j) ensures Untouched(s', d, j) {}
      forall x, d | x in s.owners && d in s.sent
        ensures s'.delivered[(x, d)] + Waiting(s', d, s.owners[x]) <= Aimed(s.sent[d], s.owners[x].user)
      {
        assert s.delivered[(x, d)] + Waiting(s, d, s.owners[x]) <= Aimed(s.sent[d], s.owners[x].user);
      }
    }
  }

  lemma KeepLoss(s: State, s': State)
    requires Inv(s) && s' == s.(open := s'.open, inbox := s'.inbox, jobs := s'.jobs)
    requires s'.inbox <= s.inbox && s'.jobs <= s.jobs
    ensures Inv(s')
  {
    forall d: Dm, j: Instance | Untouched(s, d, j) ensures Untouched(s', d, j) {}
  }

  /** Running a job takes one waiting target off and serves each addressed socket at most once. */
  lemma RunServes(s: State, job: Job, reached: set<Socket>, x: Socket, dm: Dm)
    requires Inv(s) && Enabled(s, Run(job, reached)) && x in s.owners
    ensures var s' := Next(s, Run(job, reached));
            && s'.delivered[(x, dm)] == s.delivered[(x, dm)] + One(dm == job.dm && x in reached)
            && (dm in s.sent ==> s'.delivered[(x, dm)] + Waiting(s', dm, s.owners[x])
                                 <= s.delivered[(x, dm)] + Waiting(s, dm, s.owners[x]))
  {
    var served := set y | y in reached :: (y, job.dm);
    assert (x, dm) in served <==> dm == job.dm && x in reached;
  }

  lemma KeepRun(s: State, job: Job, reached: set<Socket>)
    requires Inv(s) && Enabled(s, Run(job, reached))
    ensures Inv(Next(s, Run(job, reached)))
  {
    var s' := Next(s, Run(job, reached));
    forall x, dm | x in s.owners && dm in s.sent
      ensures s'.delivered[(x, dm)] + Waiting(s', dm, s.owners[x]) <= Aimed(s.sent[dm], s.owners[x].user)
    {
      RunServes(s, job, reached, x, dm);
    }
    forall x, dm | (x, dm) in s'.delivered ensures x in s.owners {
      assert (x, dm) in s.delivered || x in reached;
    }
    forall d: Dm, j: Instance | Untouched(s, d, j) ensures Untouched(s', d, j) {
      forall x | x in s.owners && s.owners[x].instance == j ensures s'.delivered[(x, d)] == 0 {
        RunServes(s, job, reached, x, d);
      }
    }
  }

  lemma KeepEvent(s: State, e: Event)
    requires Inv(s) && Enabled(s, e)
    ensures Inv(Next(s, e))
  {
    match e
    case Connect(x, o) => KeepConnect(s, x, o);
    case Send(dm, m) => KeepSend(s, dm, m);
    case Publish(dm, to) => KeepPublish(s, dm, to);
    case Listen(i, dm) => KeepListen(s, i, dm);
    case Run(job, reached) => KeepRun(s, job, reached);
    case _ => KeepLoss(s, Next(s, e));
  }

  lemma {:induction false} EveryRun(t: Trace)
    requires Legal(t)
    ensures Inv(Last(t))
  {
    if t.Then? {
      EveryRun(t.prev);
      KeepEvent(Last(t.prev), t.event);
    }
  }

  /** In every run a socket gets a message at most as often as its user is among the two targets. */
  lemma ServedAtMostAsAimed(t: Trace, x: Socket, dm: Dm)
    requires Legal(t)
    ensures var s := Last(t);
            if x in s.owners && dm in s.sent then s.delivered[(x, dm)] <= Aimed(s.sent[dm], s.owners[x].user)
            else s.delivered[(x, dm)] == 0
  {
    EveryRun(t);
    var s := Last(t);
    if x !in s.owners {
      assert (x, dm) !in s.delivered;
    } else if dm !in s.sent {
      assert Untouched(s, dm, s.owners[x].instance);
    }
  }

  /** A message to somebody else reaches each socket at most once, and nobody but its two people. */
  lemma AtMostOnce(t: Trace, x: Socket, dm: Dm)
    requires Legal(t) && dm in Last(t).sent && Last(t).sent[dm].peer != Last(t).sent[dm].sender
    ensures Last(t).delivered[(x, dm)] <= 1
    ensures Last(t).delivered[(x, dm)] > 0 ==>
              x in Last(t).owners && Last(t).owners[x].user in {Last(t).sent[dm].peer, Last(t).sent[dm].sender}
  {
    ServedAtMostAsAimed(t, x, dm);
  }

  /**
   * A message that is not published yet can still reach any open socket of its two people at any
   * other instance: that instance is subscribed, its listener gets to the envelope and the send succeeds.
   */
  lemma ReachesOtherInstances(t: Trace, dm: Dm, x: Socket, second: bool) returns (t': Trace)
    requires Legal(t) && dm in Last(t).sent && dm !in Last(t).published
    requires x in Last(t).open && x in Last(t).owners && Last(t).owners[x].instance != Last(t).sent[dm].origin
    requires Last(t).owners[x].user == Target(Last(t).sent[dm], second)
    ensures Legal(t') && Last(t').delivered[(x, dm)] == Last(t).delivered[(x, dm)] + 1
  {
    var s, j := Last(t), Last(t).owners[x].instance;
    var job := Job(dm, j, second);
    var t1 := Does(t, Publish(dm, {j}));
    assert (j, dm) in Last(t1).inbox;
    var t2 := Does(t1, Listen(j, dm));
    assert x in Addressed(Last(t2), job);
    t' := Does(t2, Run(job, {x}));
    assert (set y | y in {x} :: (y, dm)) == {(x, dm)};
  }

  /** The sender's own instance serves its sockets without the envelope. */
  lemma ReachesOwnInstance(t: Trace, dm: Dm, m: Sent, x: Socket, second: bool) returns (t': Trace)
    requires Legal(t) && dm !in Last(t).sent
    requires x in Last(t).open && x in Last(t).owners && Last(t).owners[x] == Owner(m.origin, Target(m, second))
    ensures Legal(t') && Last(t').delivered[(x, dm)] == Last(t).delivered[(x, dm)] + 1
    ensures Last(t').published == Last(t).published
  {
    var job := Job(dm, m.origin, second);
    var t1 := Does(t, Send(dm, m));
    assert x in Addressed(Last(t1), job);
    t' := Does(t1, Run(job, {x}));
    assert (set y | y in {x} :: (y, dm)) == {(x, dm)};
  }

  lemma Does(t: Trace, e: Event) returns (t': Trace)
    requires Legal(t) && Enabled(Last(t), e)
    ensures Legal(t') && Last(t') == Next(Last(t), e)
  {
    t' := Then(t, e);
  }

  /** Without the refusal of messages to oneself the bound would be two: some run delivers twice. */
  lemma ToOneselfTwice(u: User) returns (t: Trace)
    ensures Legal(t) && 0 in Last(t).sent && Last(t).sent[0] == Sent(0, u, u) && Last(t).delivered[(0, 0)] == 2
  {
    var o, m, j1, j2 := Owner(0, u), Sent(0, u, u), Job(0, 0, false), Job(0, 0, true);
    var t1 := Then(Start, Connect(0, o));
    assert Legal(t1) && Last(t1) == State(map[0 := o], {0}, map[], {}, {}, {}, multiset{});
    var t2 := Then(t1, Send(0, m));
    assert Legal(t2) && Last(t2) == State(map[0 := o], {0}, map[0 := m], {}, {}, {j1, j2}, multiset{});
    assert (set x: Socket | x in {0} :: (x, 0)) == {(0, 0)};
    var t3 := Then(t2, Run(j1, {0}));
    assert 0 in Addressed(Last(t2), j1);
    assert Legal(t3) && Last(t3) == State(map[0 := o], {0}, map[0 := m], {}, {}, {j2}, multiset{(0, 0)});
    t := Then(t3, Run(j2, {0}));
    assert 0 in Addressed(Last(t3), j2);
  }
}

/** The listener's watchdog over one connection, and the pauses between connections. */
module Listener {
  import opened Options

  const IDLE: real := 10.0
  const PONG: real := 5.0
  const BACKOFF_INITIAL: real := 0.5
  const BACKOFF_MAX: real := 30.0

  datatype Watch = Watch(lastRx: real, pinged: Option<real>)

  /** One turn of the poll loop: the time after the poll, and whether anything was received. */
  datatype Poll = Poll(now: real, received: bool)

  function Turn(w: Watch, p: Poll): (r: Option<Watch>) {
    if p.received then Some(Watch(p.now, None))
    else if w.pinged.None? && p.now - w.lastRx > IDLE then Some(w.(pinged := Some(p.now)))
    else if w.pinged.Some? && p.now - w.pinged.value > PONG then None
    else Some(w)
  }

  /** None once the watchdog has given the connection up. */
  function Watching(w: Watch, polls: seq<Poll>): Option<Watch> {
    if polls == [] then Some(w) else
      var n := |polls| - 1;
      var before := Watching(w, polls[..n]);
      if before.None? then None else Turn(before.value, polls[n])
  }

  function Connected(at: real): Watch { Watch(at, None) }

  /** The latest receipt, counting the connection itself as one. */
  function LatestReceipt(at: real, polls: seq<Poll>): real {
    if polls == [] then at else
      var n := |polls| - 1;
      if polls[n].received then polls[n].now else LatestReceipt(at, polls[..n])
  }

  lemma {:induction false} WatchRemembers(at: real, polls: seq<Poll>)
    ensures var w := Watching(Connected(at), polls);
            w.Some? ==> w.value.lastRx == LatestReceipt(at, polls) &&
                        (w.value.pinged.Some? ==> w.value.pinged.value - w.value.lastRx > IDLE)
  {
    if polls != [] { WatchRemembers(at, polls[..|polls| - 1]); }
  }

  /** The connection is given up only after more than 15 seconds without a receipt. */
  lemma NoFalseAlarm(at: real, polls: seq<Poll>)
    requires polls != []
    requires Watching(Connected(at), polls).None? && Watching(Connected(at), polls[..|polls| - 1]).Some?
    ensures polls[|polls| - 1].now - LatestReceipt(at, polls) > IDLE + PONG
  {
    WatchRemembers(at, polls[..|polls| - 1]);
  }

  function LatestTurn(at: real, polls: seq<Poll>): real { if polls == [] then at else polls[|polls| - 1].now }

  /** Turns follow each other by at most `d`, whatever they receive. */
  ghost predicate Spaced(at: real, polls: seq<Poll>, d: real) {
    polls == [] ||
      var n := |polls| - 1;
      polls[n].now <= LatestTurn(at, polls[..n]) + d && Spaced(at, polls[..n], d)
  }

  lemma {:induction false} StillWatching(at: real, polls: seq<Poll>, d: real)
    requires d >= 0.0 && Spaced(at, polls, d) && Watching(Connected(at), polls).Some?
    ensures var w, rx, now := Watching(Connected(at), polls).value, LatestReceipt(at, polls), LatestTurn(at, polls);
            && w.lastRx == rx
            && (w.pinged.None? ==> now <= rx + IDLE)
            && (w.pinged.Some? ==> w.pinged.value <= rx + IDLE + d && now <= w.pinged.value + PONG)
  {
    if polls != [] { StillWatching(at, polls[..|polls| - 1], d); }
  }

  /** After the last receipt, wherever it was, no turn later than 15 seconds and one turn finds the
      connection still watched. */
  lemma SilenceIsNoticed(at: real, polls: seq<Poll>, d: real)
    requires d >= 0.0 && Spaced(at, polls, d) && LatestTurn(at, polls) > LatestReceipt(at, polls) + IDLE + PONG + d
    ensures Watching(Connected(at), polls).None?
  {
    if Watching(Connected(at), polls).Some? { StillWatching(at, polls, d); }
  }

  /** The turn that gives up comes more than 15 seconds and at most 15 seconds and two turns after the last receipt. */
  lemma GivesUpInTime(at: real, polls: seq<Poll>, d: real)
    requires d >= 0.0 && Spaced(at, polls, d) && polls != []
    requires Watching(Connected(at), polls).None? && Watching(Connected(at), polls[..|polls| - 1]).Some?
    ensures var silence := LatestTurn(at, polls) - LatestReceipt(at, polls);
            IDLE + PONG < silence <= IDLE + PONG + 2.0 * d
  {
    NoFalseAlarm(at, polls);
    StillWatching(at, polls[..|polls| - 1], d);
  }

  // ---- pauses ----------------------------------------------------------------------------------------------------

  function Doubled(b: real): real { if b * 2.0 < BACKOFF_MAX then b * 2.0 else BACKOFF_MAX }

  /** The pause before the next attempt; each attempt ends, healthy (so resetting the pause) or not. */
  function Backoff(healthy: seq<bool>): real {
    if healthy == [] then BACKOFF_INITIAL else
      var n := |healthy| - 1;
      Doubled(if healthy[n] then BACKOFF_INITIAL else Backoff(healthy[..n]))
  }

  function Pause(healthy: seq<bool>): real
    requires healthy != []
  {
    var n := |healthy| - 1;
    if healthy[n] then BACKOFF_INITIAL else Backoff(healthy[..n])
  }

  /** How many attempts have ended since the last healthy one, or since the first if none was. */
  function Since(healthy: seq<bool>): nat
    requires healthy != []
  {
    var n := |healthy| - 1;
    if healthy[n] || n == 0 then 0 else 1 + Since(healthy[..n])
  }

  function PowerOfTwo(n: nat): nat { if n == 0 then 1 else 2 * PowerOfTwo(n - 1) }

  function Capped(r: real): real { if r < BACKOFF_MAX then r else BACKOFF_MAX }

  /** The pause is half a second doubled once per unhealthy attempt in a row, up to half a minute. */
  lemma {:induction false} PauseDoubles(healthy: seq<bool>)
    requires healthy != []
    ensures Pause(healthy) == Capped(BACKOFF_INITIAL * PowerOfTwo(Since(healthy)) as real)
    ensures BACKOFF_INITIAL <= Pause(healthy) <= BACKOFF_MAX
  {
    var n := |healthy| - 1;
    if !healthy[n] && n > 0 {
      PauseDoubles(healthy[..n]);
      var p := PowerOfTwo(Since(healthy[..n]));
      assert (2 * p) as real == 2.0 * p as real;
      assert Backoff(healthy[..n]) == Doubled(Pause(healthy[..n]));
    }
  }
}
