/**
 * The hard deletion of withdrawn users. The job works in chunks of at most 200 users; each chunk
 * lowers the like counters by what the chunk's users contribute and then deletes the users, whose
 * like rows go with them.
 */
module Purge {
  import opened Likes
  import LikeCounts

  /** One counter after GREATEST(c - n, 0); a target without likes of these users is not updated. */
  function Less(c: int, n: nat): int { if n > 0 then Max0(c - n) else c }

  /** The counters after an update for `us` that reaches the targets of one kind. */
  function LoweredPosts(counts: map<Target, int>, rows: set<Like>, us: set<UserId>): map<Target, int> {
    map x | x in counts :: if x.PostTarget? then Less(counts[x], Share(rows, x, us)) else counts[x]
  }

  function LoweredComments(counts: map<Target, int>, rows: set<Like>, us: set<UserId>): map<Target, int> {
    map x | x in counts :: if x.CommentTarget? then Less(counts[x], Share(rows, x, us)) else counts[x]
  }

  /** What one transaction over all of `us` would leave of the counters. */
  function Lowered(counts: map<Target, int>, rows: set<Like>, us: set<UserId>): map<Target, int> {
    map x | x in counts :: Less(counts[x], Share(rows, x, us))
  }

  function RowsLeft(rows: set<Like>, us: set<UserId>): set<Like> { set l | l in rows && l.user !in us }

  ghost predicate Exact(counts: map<Target, int>, rows: set<Like>, x: Target)
    requires x in counts
  {
    counts[x] == |Likers(rows, x)|
  }

  class Tables {
    var counts: map<Target, int>
    var rows: set<Like>
    var users: set<UserId>
    /** The users whose withdrawal is older than the cutoff. */
    var expired: set<UserId>

    method SelectPurgeable(limit: nat) returns (chunk: set<UserId>)
      ensures chunk <= users * expired && |chunk| <= limit
      ensures limit > 0 && users * expired != {} ==> chunk != {}
    {
      chunk := {};
      var rest := users * expired;
      while rest != {} && |chunk| < limit
        invariant rest <= users * expired && chunk == users * expired - rest
        invariant |chunk| <= limit
        decreases |rest|
      {
        var u :| u in rest;
        chunk, rest := chunk + {u}, rest - {u};
      }
    }

    /** DELETE ... RETURNING; like rows cascade. */
    method DeleteUsers(us: set<UserId>) returns (deleted: set<UserId>)
      modifies `users, `rows
      ensures deleted == us * old(users) && users == old(users) - us
      ensures rows == RowsLeft(old(rows), deleted)
    {
      deleted := us * users;
      users := users - us;
      rows := RowsLeft(rows, deleted);
    }

    /** One transaction: both counter updates read the like rows before the users go. */
    method PurgeChunk(chunk: set<UserId>) returns (deleted: set<UserId>)
      requires chunk <= users
      modifies `counts, `rows, `users
      ensures deleted == chunk && users == old(users) - chunk
      ensures rows == RowsLeft(old(rows), chunk)
      ensures counts == Lowered(old(counts), old(rows), chunk)
    {
      BothKinds(counts, rows, chunk);
      counts := LoweredPosts(counts, rows, chunk);
      counts := LoweredComments(counts, rows, chunk);
      deleted := DeleteUsers(chunk);
    }

    /** The chunked job leaves exactly what one transaction over every purgeable user would leave. */
    method Run() returns (total: nat)
      modifies `counts, `rows, `users
      ensures users == old(users) - old(expired)
      ensures rows == RowsLeft(old(rows), old(users * expired))
      ensures counts == Lowered(old(counts), old(rows), old(users * expired))
      ensures total == |old(users * expired)|
    {
      total := 0;
      ghost var gone: set<UserId> := {};
      NobodyGone(counts, rows);
      while true
        invariant gone <= old(users * expired) && users == old(users) - gone && total == |gone|
        invariant rows == RowsLeft(old(rows), gone)
        invariant counts == Lowered(old(counts), old(rows), gone)
        decreases |users|
      {
        var chunk := SelectPurgeable(CHUNK);
        if chunk == {} {
          assert gone == old(users * expired);
          break;
        }
        var deleted := PurgeChunk(chunk);
        NextChunk(old(counts), old(rows), gone, chunk);
        gone := gone + chunk;
        total := total + |deleted|;
      }
    }
  }

  lemma NobodyGone(counts: map<Target, int>, rows: set<Like>)
    ensures Lowered(counts, rows, {}) == counts && RowsLeft(rows, {}) == rows
  {
    forall x ensures Share(rows, x, {}) == 0 { assert Likers(rows, x) * {} == {}; }
  }

  /** Posts first and comments second is the same as all targets at once. */
  lemma BothKinds(counts: map<Target, int>, rows: set<Like>, us: set<UserId>)
    ensures LoweredComments(LoweredPosts(counts, rows, us), rows, us) == Lowered(counts, rows, us)
  {
  }

  lemma ShareOfLeft(rows: set<Like>, x: Target, gone: set<UserId>, us: set<UserId>)
    requires gone !! us
    ensures Share(RowsLeft(rows, gone), x, us) == Share(rows, x, us)
    ensures Share(rows, x, gone + us) == Share(rows, x, gone) + Share(rows, x, us)
  {
    LikeCounts.SameShare(rows, RowsLeft(rows, gone), x, us);
    var all := Likers(rows, x);
    assert all * (gone + us) == (all * gone) + (all * us);
  }

  lemma NextChunk(counts: map<Target, int>, rows: set<Like>, gone: set<UserId>, us: set<UserId>)
    requires gone !! us
    ensures Lowered(Lowered(counts, rows, gone), RowsLeft(rows, gone), us) == Lowered(counts, rows, gone + us)
    ensures RowsLeft(RowsLeft(rows, gone), us) == RowsLeft(rows, gone + us)
  {
    var once, twice := Lowered(counts, rows, gone + us), Lowered(Lowered(counts, rows, gone), RowsLeft(rows, gone), us);
    forall x | x in counts ensures twice[x] == once[x] {
      ShareOfLeft(rows, x, gone, us);
      LessTwice(counts[x], Share(rows, x, gone), Share(rows, x, us));
    }
  }

  lemma LessTwice(c: int, n: nat, m: nat)
    ensures Less(Less(c, n), m) == Less(c, n + m)
  {
  }

  /** A counter that was exact before the purge is exact after it, whoever was purged. */
  lemma PurgeKeepsCountersExact(counts: map<Target, int>, rows: set<Like>, us: set<UserId>, x: Target)
    requires x in counts && Exact(counts, rows, x)
    ensures Exact(Lowered(counts, rows, us), RowsLeft(rows, us), x)
  {
    var all, left := Likers(rows, x), Likers(RowsLeft(rows, us), x);
    assert left == all - us by {
      forall u | u in all - us ensures u in left { assert Like(x, u) in RowsLeft(rows, us); }
    }
    assert all == (all - us) + (all * us);
  }
}
