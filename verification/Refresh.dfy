/**
 * Refresh-token rotation: one Redis key per user holds the digest of the only token that may be
 * refreshed. Logins, refreshes, logouts and revocations of all users interleave with a clock; the
 * compare-and-set script is one event. A digest stands for its token.
 */
module Refresh {
  import opened Options

  type UserId = nat
  type Digest = nat

  datatype Entry = Entry(digest: Digest, until: int)

  /** `issued` is history: every digest a login or a refresh has produced, with its user. */
  datatype State = State(now: int, stored: map<UserId, Entry>, issued: map<Digest, UserId>)

  datatype Event =
    | Tick(seconds: nat)
    | Login(user: UserId, minted: Digest, ttl: int)
    | Rotate(user: UserId, incoming: Digest, minted: Digest, ttl: int)
    | Logout(user: UserId)
    | Revoke(user: UserId)

  /** What GET on the user's key returns. */
  function Current(s: State, u: UserId): Option<Digest> {
    if u in s.stored && s.now < s.stored[u].until then Some(s.stored[u].digest) else None
  }

  predicate Enabled(s: State, e: Event) {
    match e
    case Login(_, minted, _) => minted !in s.issued
    case Rotate(_, _, minted, _) => minted !in s.issued
    case _ => true
  }

  /** Whether a refresh answers with new tokens. */
  predicate Accepted(s: State, e: Event)
    requires e.Rotate?
  {
    Current(s, e.user) == Some(e.incoming)
  }

  function Next(s: State, e: Event): State
    requires Enabled(s, e)
  {
    match e
    case Tick(seconds) => s.(now := s.now + seconds)
    case Login(u, minted, ttl) =>
      s.(issued := s.issued[minted := u],
         stored := if ttl > 0 then s.stored[u := Entry(minted, s.now + ttl)] else s.stored)
    case Rotate(u, _, minted, ttl) =>
      // With a positive ttl the script compares and sets at once; otherwise the digest is only compared.
      s.(issued := s.issued[minted := u],
         stored := if Accepted(s, e) && ttl > 0 then s.stored[u := Entry(minted, s.now + ttl)] else s.stored)
    case Logout(u) => s.(stored := s.stored - {u})
    case Revoke(u) => s.(stored := s.stored - {u})
  }

  datatype Trace = Start(now: int) | Then(prev: Trace, event: Event)

  ghost predicate Legal(t: Trace)
    decreases t, 0
  {
    t.Start? || (Legal(t.prev) && Enabled(Last(t.prev), t.event))
  }

  ghost function Last(t: Trace): State
    requires Legal(t)
    decreases t, 1
  {
    match t
    case Start(now) => State(now, map[], map[])
    case Then(prev, e) => Next(Last(prev), e)
  }

  /** The last event of `t` is a refresh with token `d` that was answered. */
  ghost predicate Succeeds(t: Trace, d: Digest)
    requires Legal(t)
  {
    t.Then? && t.event.Rotate? && t.event.incoming == d && Accepted(Last(t.prev), t.event)
  }

  /** How often token `d` was refreshed successfully. */
  ghost function Uses(t: Trace, d: Digest): nat
    requires Legal(t)
  {
    if t.Start? then 0 else Uses(t.prev, d) + if Succeeds(t, d) then 1 else 0
  }

  /** Every refresh of the run is configured with a positive lifetime. */
  ghost predicate PositiveTtl(t: Trace) {
    t.Then? ==> PositiveTtl(t.prev) && (t.event.Rotate? ==> t.event.ttl > 0)
  }

  // ---- each token works once ----------------------------------------------------------------------

  ghost predicate Known(s: State) {
    && (forall u :: u in s.stored ==> s.stored[u].digest in s.issued && s.issued[s.stored[u].digest] == u)
  }

  lemma {:induction false} StoredWasIssued(t: Trace)
    requires Legal(t)
    ensures Known(Last(t))
  {
    if t.Then? { StoredWasIssued(t.prev); }
  }

  /** A token that was used is under no key any more, and one never issued was not used. */
  lemma {:induction false} UsedTokensAreGone(t: Trace, d: Digest)
    requires Legal(t) && PositiveTtl(t)
    ensures Uses(t, d) <= 1
    ensures Uses(t, d) == 1 ==> d in Last(t).issued && forall u :: u in Last(t).stored ==> Last(t).stored[u].digest != d
  {
    if t.Then? {
      UsedTokensAreGone(t.prev, d);
      StoredWasIssued(t.prev);
    }
  }

  /** With positive lifetimes, in any interleaving, a token is refreshed successfully at most once. */
  lemma RotatesAtMostOnce(t: Trace, d: Digest)
    requires Legal(t) && PositiveTtl(t)
    ensures Uses(t, d) <= 1
  {
    UsedTokensAreGone(t, d);
  }

  /** At most one token of all those ever issued would be accepted for `u`, and it is a token of `u`. */
  lemma OneAcceptableToken(t: Trace, u: UserId, d: Digest, d': Digest, minted: Digest, ttl: int)
    requires Legal(t) && Accepted(Last(t), Rotate(u, d, minted, ttl))
    ensures d in Last(t).issued && Last(t).issued[d] == u
    ensures Accepted(Last(t), Rotate(u, d', minted, ttl)) ==> d == d'
    ensures forall v :: v != u ==> !Accepted(Last(t), Rotate(v, d, minted, ttl))
  {
    StoredWasIssued(t);
  }

  // ---- after a logout ------------------------------------------------------------------------------

  /** `t` goes on from `start` and holds no login of `u` after it. */
  ghost predicate NoLogin(t: Trace, start: Trace, u: UserId) {
    t == start || (t.Then? && NoLogin(t.prev, start, u) && !(t.event.Login? && t.event.user == u))
  }

  lemma {:induction false} StaysSignedOut(t: Trace, start: Trace, u: UserId)
    requires Legal(t) && Legal(start) && NoLogin(t, start, u) && u !in Last(start).stored
    ensures u !in Last(t).stored
  {
    if t != start { StaysSignedOut(t.prev, start, u); }
  }

  /** After a logout or a revocation no token of the user is accepted until the next login. */
  lemma NothingAcceptedAfterLogout(out: Trace, t: Trace, u: UserId, d: Digest, minted: Digest, ttl: int)
    requires Legal(out) && out.Then? && (out.event == Logout(u) || out.event == Revoke(u))
    requires Legal(t) && NoLogin(t, out, u)
    ensures !Accepted(Last(t), Rotate(u, d, minted, ttl))
  {
    StaysSignedOut(t, out, u);
  }

  // ---- why the lifetime must be positive ----------------------------------------------------------

  /** With a lifetime of zero or less an accepted refresh leaves its own token acceptable. */
  lemma ZeroTtlKeepsTheToken(t: Trace, e: Event, again: Event)
    requires Legal(t) && Enabled(Last(t), e) && e.Rotate? && Accepted(Last(t), e)
    requires again.Rotate? && again.user == e.user && again.incoming == e.incoming
    ensures Accepted(Next(Last(t), e), again) <==> e.ttl <= 0
  {
    StoredWasIssued(t);
  }

  // ---- the token that was handed out ----------------------------------------------------------------

  /** The event hands `minted` to `u`, to be stored for `ttl` seconds. */
  ghost predicate HandsOut(s: State, e: Event, u: UserId, minted: Digest, ttl: int) {
    ttl > 0 && (e == Login(u, minted, ttl) || (e.Rotate? && e == Rotate(u, e.incoming, minted, ttl) && Accepted(s, e)))
  }

  /** The event changes which token of `u` is stored. */
  ghost predicate Replaces(s: State, e: Event, u: UserId) {
    match e
    case Tick(_) => false
    case Login(v, _, ttl) => v == u && ttl > 0
    case Rotate(v, _, _, ttl) => v == u && ttl > 0 && Accepted(s, e)
    case Logout(v) => v == u
    case Revoke(v) => v == u
  }

  /** `t` goes on from `start` and nothing after it replaces the token of `u`. */
  ghost predicate Undisturbed(t: Trace, start: Trace, u: UserId)
    requires Legal(t)
  {
    t == start || (t.Then? && Undisturbed(t.prev, start, u) && !Replaces(Last(t.prev), t.event, u))
  }

  lemma {:induction false} EntryStays(t: Trace, start: Trace, u: UserId)
    requires Legal(t) && Legal(start) && Undisturbed(t, start, u) && u in Last(start).stored
    ensures u in Last(t).stored && Last(t).stored[u] == Last(start).stored[u]
  {
    if t != start { EntryStays(t.prev, start, u); }
  }

  /**
   * After a login or an accepted refresh the user is served with the token just handed out, and with
   * no other, until it expires or is replaced, whatever all others do meanwhile.
   */
  lemma HandedOutTokenWorks(start: Trace, t: Trace, u: UserId, minted: Digest, ttl: int, again: Event)
    requires Legal(start) && start.Then? && HandsOut(Last(start.prev), start.event, u, minted, ttl)
    requires Legal(t) && Undisturbed(t, start, u) && again.Rotate? && again.user == u
    ensures Accepted(Last(t), again) <==> again.incoming == minted && Last(t).now < Last(start).now + ttl
  {
    assert Last(start).stored[u] == Entry(minted, Last(start).now + ttl);
    EntryStays(t, start, u);
  }
}
