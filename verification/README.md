# puppytalk-be: a verified model

Puppytalk is the backend of a community site: posts with images, comments, likes, direct messages,
accounts. This project models the parts of it whose correctness depends on more than one function:
protocols between concurrent requests, periodic jobs, Redis and object storage, and the algorithms
behind paging, search, public ids, rate limits and the dependency snapshot. Every theorem is about
all inputs or about every run; `dafny verify dfyconfig.toml` checks the whole project.

| file | what it models |
|---|---|
| `Images.dfy`, `ImageInvariant.dfy`, `ImageSafety.dfy`, `ImageEffects.dfy`, `ImageProgress.dfy` | uploads, attachment, sign-up, soft deletion and sweeping of images over rows, row locks and a bucket: what always holds, what each operation leaves, and that each can go through |
| `Cleanup.dfy` | the paging loop that the sweeps share |
| `Views.dfy`, `ViewProgress.dfy` | the view-count buffer in Redis and its flush to the database |
| `Leases.dfy` | the Redis lease lock, the job runner and idempotent post creation |
| `Refresh.dfy` | rotation of refresh tokens |
| `Likes.dfy`, `LikeDrift.dfy`, `LikeEffects.dfy`, `PurgeOverlap.dfy`, `Purge.dfy` | denormalised like counters, when exactly they go wrong, what likes leave, purges side by side, and the purge job |
| `Pages.dfy`, `Replies.dfy` | keyset pages of chat messages and of replies, and the reply previews |
| `Closure.dfy` | the walk over a lock file that builds the dependency graph |
| `LikePattern.dfy` | search tokens as ILIKE patterns |
| `Base62.dfy` | public ids |
| `RateLimit.dfy` | the in-memory fixed-window limiter |
| `Fanout.dfy` | delivery of direct messages across instances, the listener's watchdog and its pauses |

## How the models read the code

- A protocol is a `State`, an `Event`, `Enabled` and `Next`; a run is a `Trace` whose every event
  was enabled, and `Last` is the state it leads to. Theorems are stated for every `Legal` trace.
- One SQL statement, one commit, one Redis command or script, or one storage call is one event.
  A statement reads what is committed plus the writes of its own transaction. A fetch with
  `FOR UPDATE SKIP LOCKED` evaluates its conditions and takes its locks in one event.
- Locks are those PostgreSQL documents for rows. A crash or an error ends the transaction and its
  locks; what storage or Redis has done stays done. Many calls may fail before or after their effect.
- A copy in storage is over while the row lock is still held. Two objects with the same ETag are the
  same object. New ids, keys, tokens and digests are unused so far.
- A statement that waits for a row lock runs after the wait, with one exception: the counter update
  of a purge sums up the like rows first and, after the wait, applies the sums it has, as PostgreSQL
  does under READ COMMITTED for an UPDATE that joins an aggregate.
- A like or unlike begins with the check that its user has not withdrawn. The locks that foreign keys
  take on user rows are left out, so the model has more interleavings of likes and purges than the
  database.
- Messages of a room sort by creation time and id in the order in which they become visible. Two
  senders that commit in the other order are outside the model of the walks.
- Sign-up may try any image, whether or not it holds a token for it.
- Time, randomness, failures and what other parties do are parameters of events or of methods.

## Model

| member | source | states |
|---|---|---|
| ImageInvariant.KeepEvent | app/domain/media/service.py:132-345 | Every statement, commit, storage call and crash of uploaders, attachers, sign-ups, soft deleters and sweepers keeps the invariant that ties rows, references, objects, tokens and open transactions together |
| ImageSafety.EveryRun | app/domain/media/service.py:132-345 | The invariant holds after every run, however the actors interleave |
| ImageSafety.EveryObjectHasItsRow | app/domain/media/service.py:132-211 | At every moment each object in the bucket is valid and has a row with its key, size and type, so that a sweep can find it |
| ImageSafety.ReferencedImagesAreLive | app/domain/media/model.py:165-190 | A profile, dog or post never points to a missing or marked image, and a marked image is never referenced |
| ImageSafety.LiveSignupImagesHaveTokens | app/domain/media/service.py:232-264 | A sign-up image is never live before its upload token was stored |
| ImageSafety.ConfirmedUploadIsWhole | app/domain/media/service.py:132-211 | When an upload commits, its row was still reserved and becomes live, and the bucket holds exactly the object that was validated, with the size and type the row records |
| ImageSafety.ConfirmFindsItsRow | app/domain/media/model.py:139-157 | The confirming UPDATE always finds its reserved row: the branch for a vanished row cannot be taken |
| ImageSafety.UploadIsUntouched | app/domain/media/model.py:124-136 | From lock to commit nothing others do, over any continuation in which the uploader does not act, changes the upload's row or object |
| ImageSafety.ReclaimedBeforeLock | app/domain/media/model.py:124-136 | If a sweep takes the reserved row first, no object has its key and the upload can only fail |
| ImageSafety.GoneForGood | app/domain/media/model.py:210-215 | In every continuation of a run an image whose row is gone has no row, and its key has no object |
| ImageSafety.SweepSparesReferences | app/domain/media/model.py:239-286 | The passes that test references commit without removing any reference |
| ImageSafety.MarkedRowsCanBeReclaimed | app/domain/media/service.py:75-117 | A marked row past its grace period that nobody has locked can be reclaimed: some continuation of the run removes exactly its object and its row |
| ImageSafety.EligibleRowsCanBeSwept | app/domain/media/service.py:307-345 | For each of the three passes: a row it may take and nobody has locked can be taken, and exactly its object, its row and the references to it go |
| ImageEffects.UploadTakesEffect | app/domain/media/service.py:132-211 | An upload that commits, whatever others did since it began, leaves a live row for exactly the object that was pending then, of the size announced, under a key of the purpose asked for, and no other row or reference changes |
| ImageEffects.AttachBegins | app/domain/media/model.py:165-190 | An attachment goes ahead if and only if every image is live |
| ImageEffects.AttachTakesEffect | app/domain/posts/repository.py:284-296 | An attachment that commits, whatever others did since it began, leaves a reference of its holder to every one of its images, all live, takes away just the ones it drops, and leaves other holders' references alone |
| ImageEffects.ClaimDecides | app/domain/media/model.py:193-207 | A sign-up claims its image if and only if it is live and nobody's, and otherwise fails |
| ImageEffects.SignupTakesEffect | app/domain/media/model.py:193-207 | A sign-up that commits makes the image the new user's own and their profile picture, and changes nothing else |
| ImageEffects.SoftDeleteBegins | app/domain/media/model.py:289-344 | A soft deletion goes ahead if and only if the image is live and the user's own |
| ImageEffects.SoftDeleteTakesEffect | app/domain/media/model.py:289-344 | A soft deletion that commits marks the image with the time it began, removes every reference to it and no other, and keeps the object |
| ImageEffects.SweepTakesEffect | app/domain/media/service.py:97-113 | A sweep that commits has tried every row of its page and removes exactly those whose object it has deleted |
| ImageEffects.ReferencedImageIsKept | app/domain/media/model.py:63-69 | In any continuation in which a reference stands, the image stays live and its object stays in the bucket, whatever uploads, deletions and passes that test references do |
| ImageProgress.UploadCanSucceed | app/domain/media/service.py:132-264 | From every reachable state a valid pending object can be uploaded, for each purpose: one live row and its object are added and nothing else changes |
| ImageProgress.AttachCanSucceed | app/domain/media/model.py:165-190 | Live images that nobody has locked can be attached |
| ImageProgress.SignupCanSucceed | app/domain/media/model.py:193-207 | An image that is live, nobody's and not locked can be claimed in a sign-up |
| ImageProgress.SoftDeleteCanSucceed | app/domain/media/service.py:290-304 | A user's own live image that is not locked can be soft-deleted |
| Cleanup.VisitsInOrder | app/domain/media/model.py:72-86 | The batches fetch rows in increasing id, so none twice, even when locks and eligibility change between batches |
| Cleanup.VisitedMember | app/domain/media/model.py:72-86 | Only rows of the table beyond the cursor that some batch could see are fetched |
| Cleanup.VisitsEveryShownRow | app/domain/media/service.py:75-117 | A row that every batch can see is visited, however many rows before it keep failing |
| Cleanup.VisitsExactlyTheShownRows | app/domain/media/service.py:75-117 | When nothing changes under way, the visits are all eligible unlocked rows, once each, in order |
| Cleanup.PageUnaffected | app/domain/media/service.py:75-117 | Deleting rows behind the cursor does not change what later batches fetch |
| Cleanup.PageRowsGo | app/domain/media/model.py:210-215 | Deleting by id removes exactly the page's successes, and the row count equals their number |
| Cleanup.Store.DeleteObjects | app/domain/media/service.py:104-110 | The inner loop deletes the objects of a page, collects the ids whose delete did not raise, and reports the others in order |
| Cleanup.Store.Batch | app/domain/media/service.py:97-113 | After one batch exactly its successes are gone from the table and their objects from the bucket |
| Cleanup.Store.Run | app/domain/media/service.py:75-117 | The whole loop deletes exactly the visited rows whose storage delete did not raise, removes the objects of the visited rows, reports the failures in order, returns the number deleted, and terminates |
| ViewConservation.EveryRun | app/domain/posts/services/post_service.py:89-272 | In every run the balance of recorded, buffered, drained and committed views holds for every live post |
| ViewConservation.FlushMoves | app/domain/posts/services/post_service.py:222-272 | Each step of a flush moves views between buffer, drain and table, or to the lost or doubled account, without changing their sum |
| ViewConservation.RecordedIsSeen | app/domain/posts/services/post_service.py:89-118 | The ledger of recorded views is, post by post, the number of views in the run |
| ViewConservation.ViewsAreAccountedFor | app/domain/posts/services/post_service.py:89-272 | Committed, buffered and drained views of a live post are exactly the views of the run minus those lost plus those doubled, with any number of overlapping flushes |
| ViewConservation.NeverCountedTwice | app/domain/posts/services/post_service.py:222-272 | Unless a command takes effect although its caller sees it fail, no view is counted twice, whatever else fails or crashes |
| ViewConservation.ViewsAreConserved | app/infra/redis.py:76-99 | If moreover no crash and no failed merge drops a drain, every view of the run is in the table, the buffer or a drain, once |
| ViewProgress.CommitReachesTheTable | app/domain/posts/services/post_service.py:247-256 | A commit whose reply arrives raises the table of every live post by exactly what was drained of it |
| ViewProgress.EveryViewCanReachTheTable | app/domain/posts/services/post_service.py:222-272 | However flushes overlapped and failed, a run without loss or ambiguity can go on, with no further view, to an empty buffer and a table that holds exactly the views of every live post |
| ViewConservation.DoubledExactlyWhenAmbiguous | app/domain/posts/services/post_service.py:89-118 | For a live post, what is counted minus the views of the run rises in an event if and only if it is a buffering that raised after its effect, or a commit that took effect for that post although it raised |
| ViewConservation.LostExactlyWhenDropped | app/infra/redis.py:94-99 | It falls in an event if and only if the event ends a flush, by a crash or a failed merge, that still holds views of the post |
| ViewConservation.LostReplyCountsTwice | app/domain/posts/services/post_service.py:222-272 | A run in which one recorded view counts as two: the commit takes effect, its reply is lost, and the drain is merged back |
| LeaseSafety.EveryRun | app/infra/lock.py:25-63 | In every run a live lock holds the token of a client that may still hold it, and a client inside its lease holds the lock |
| LeaseSafety.MutualExclusion | app/core/cleanup.py:38-64 | Two clients never work on the same key while both leases run |
| LeaseSafety.AnsweredSetDecides | app/infra/lock.py:25-36 | An answered SET NX lets the client in if and only if no lease was live under its key, and then the key holds its token for the lifetime asked for |
| LeaseSafety.TurnedAwayByAnother | app/infra/lock.py:25-36 | In every run an attempt ends skipped or in conflict only if the lease of another client was live at its SET |
| LeaseSafety.OutcomesTell | app/core/cleanup.py:38-64 | In every run the work is done exactly once by who ends with a release or without a lock, and not at all by who is turned away or replayed |
| LeaseSafety.HoldersRelease | app/core/cleanup.py:38-64 | In every run who has held the lock ends with a release, got through or not, unless cancelled |
| LeaseSafety.JobCanRun | app/core/cleanup.py:38-64 | From every reachable state a job that finds its key free can run, and leaves the key free |
| LeaseSafety.PostCanBeCreated | app/domain/posts/idempotency.py:80-174 | From every reachable state a first post request can create its post once, leave its result for the next one and leave the key free |
| LeaseSafety.OnlyTheOwnerUnlocks | app/infra/lock.py:39-44 | A live lock changes or disappears only in a release by the client whose token it holds |
| LeaseSafety.NoTokenLeftBehind | app/domain/posts/idempotency.py:138-187 | After a post request whose release got through, and after every attempt that was turned away or replayed, the key does not hold the attempt's token, even when the SET took effect and its reply was lost |
| LeaseSafety.ResultsAreBounded | app/domain/posts/idempotency.py:138-147 | In every run no stored result outlives an hour from now |
| LeaseSafety.ResultsStay | app/domain/posts/idempotency.py:138-147 | In every continuation a stored result is only ever replaced by one that lives at least as long |
| LeaseSafety.DoneIsFinal | app/domain/posts/idempotency.py:80-187 | An attempt that is over never changes again, in any continuation |
| LeaseSafety.StoredResultIsReplayed | app/domain/posts/idempotency.py:80-135 | A request that asks after the result was stored and before it expires is answered from it and never comes to create a post |
| LeaseSafety.ReplayedWasStored | app/domain/posts/idempotency.py:80-135 | In every run an answer is replayed only from a result stored under the same key less than an hour before |
| LeaseSafety.StoresWhatSucceeded | app/domain/posts/idempotency.py:138-187 | In every run only a request whose work succeeded stores a result, and no such request ends, uncancelled, without trying to |
| Refresh.StoredWasIssued | app/domain/auth/service.py:286-294 | In every run the stored digest of a user was issued to that user |
| Refresh.UsedTokensAreGone | app/domain/auth/service.py:56-70 | With positive lifetimes a token that was refreshed is under no key any more |
| Refresh.RotatesAtMostOnce | app/domain/auth/service.py:331-383 | With positive lifetimes each token is refreshed successfully at most once, in any interleaving of logins, refreshes, logouts, revocations and expiry |
| Refresh.OneAcceptableToken | app/domain/auth/service.py:102-152 | At most one of all tokens would be accepted for a user, it was issued to that user, and no other user can use it |
| Refresh.HandedOutTokenWorks | app/domain/auth/service.py:56-70 | After a login or an accepted refresh, in every continuation that does not replace the user's token, a refresh of the user is accepted if and only if it presents the token just handed out and its lifetime is not over |
| Refresh.NothingAcceptedAfterLogout | app/domain/auth/service.py:317-323 | After a logout or revocation no token of the user is accepted until the next login |
| Refresh.ZeroTtlKeepsTheToken | app/domain/auth/service.py:117-123 | An accepted refresh leaves its own token acceptable if and only if the lifetime is zero or less |
| LikeDrift.EveryRunIsSound | app/domain/likes/service.py:143-191 | In every run, with nothing assumed of it, no like row is added twice or removed twice by overlapping transactions, and no counter is negative |
| LikeDrift.DriftsExactlyWhenMissed | app/db/statements.py:51-80 | In every run an event changes the difference between the counter of a post or comment and the number of its likes if and only if it commits an unlike that finds the counter at 0, or a purge whose sum, cut off at the counter, is not the number of like rows it removes |
| LikeDrift.ExactWhileNotMissed | app/db/statements.py:51-80 | Over a whole run the counter of a post or comment is right in every state if and only if no commit of the run misses it in that way |
| LikeEffects.LikeTakesEffect | app/domain/likes/service.py:143-174 | A like that ends without rolling back, whatever others did since it began, leaves its row and counts its target up by one exactly if the row was missing; other rows and counters stay |
| LikeEffects.UnlikeTakesEffect | app/domain/likes/service.py:176-191 | An unlike that ends without rolling back leaves no row and counts its target down by one, not below 0, exactly if there was one; other rows and counters stay |
| LikeEffects.PostDeletionTakesEffect | app/domain/posts/services/post_service.py:301-307 | A post deletion that commits marks the post and leaves, at that moment, not one like of it, and touches no other like |
| LikeEffects.UnlikesAlone | app/domain/likes/service.py:176-191 | From every reachable state in which nobody else is at work an unlike goes through |
| LikeEffects.DeletesAlone | app/domain/posts/services/post_service.py:301-307 | From every reachable state in which nobody else is at work a post can be deleted with all its likes |
| PurgeOverlap.LikesAlone | app/domain/likes/service.py:143-174 | After every run without likes that outlast the retention period, when nobody else is at work, a like goes through |
| LikeCounts.RetentionSettles | app/domain/users/model.py:393-403 | The 30-day cutoff keeps purges away from open likes: if no like or unlike stays open for longer than that, no user is selected while a like of theirs is in flight |
| LikeCounts.CountersAreExact | app/domain/likes/service.py:143-191 | In every run in which no like stays open for longer than the retention period and purges apply sums that are still right, overlapping purges of the same user included, the like count of a post that is not deleted and of every comment is the number of its like rows |
| LikeCounts.ClampNeverActs | app/db/statements.py:51-80 | Whenever an unlike or a purge commits in such a run, the counter holds at least what is taken off, so GREATEST with 0 never changes a result |
| PurgeOverlap.SeparatePurgesArePrompt | app/domain/users/service.py:179-201 | Purges that share no user always apply sums that are still right, however statements interleave |
| PurgeOverlap.KeptApartIsExact | app/main.py:65-68 | What the jobs have to keep to: if no like outlasts the retention period and no user is in two purges at once, every counter is right in every state and no commit misses one |
| PurgeOverlap.PurgeGoesOn | app/domain/users/service.py:191-200 | A purge that has summed up its posts can always go on to its commit while nobody holds a lock, and what it leaves |
| PurgeOverlap.WaitingPurgeCutsTwice | app/infra/lock.py:56-63 | A run of two purges over one user, which the job lock admits when Redis is away, more than 30 days after the withdrawal: the second takes the same like off again |
| PurgeOverlap.LikeInFlightStaysCounted | app/domain/users/service.py:191-200 | A run in which a like stays open through the 30 days and commits between the sums and the deletion: it goes with its user and stays in the counter, although the purge is the only one and its sums were right |
| Purge.Tables.SelectPurgeable | app/domain/users/model.py:380-403 | A chunk is at most the limit, only of purgeable users, and empty only if there is none |
| Purge.Tables.PurgeChunk | app/domain/users/service.py:191-200 | Post counters, then comment counters, then users: the same as lowering all counters at once by what the chunk's users contribute |
| Purge.Tables.Run | app/domain/users/service.py:179-201 | The chunked job terminates, removes all purgeable users and their likes, counts them, and leaves the counters one transaction over all of them would leave |
| Purge.NextChunk | app/db/statements.py:51-80 | Two decrements for disjoint users, clamps included, equal one for their union |
| Purge.PurgeKeepsCountersExact | app/db/statements.py:51-80 | A counter that was the number of likes before a purge is the number of likes after it |
| Pages.SplitOverfetch | app/common/schemas.py:84-86 | Fetching one row more than the page decides exactly whether rows remain |
| ChatPages.RefusalsAre | app/domain/chat/service.py:237-301 | A request is refused exactly for no membership, then for a cursor that is no message of the room, then for going forward without a cursor, and answered otherwise |
| ChatPages.StepBack | app/domain/chat/service.py:271-319 | A page going back is the next messages before the cursor, newest first, says truly whether more remain, and hands on the right cursor |
| ChatPages.StepForward | app/domain/chat/service.py:271-319 | A page going forward is the next messages after the cursor, turned newest first, says truly whether more remain, and hands on the right cursor |
| ChatPages.WalkBack | app/domain/chat/service.py:271-319 | Scrolling back lists every older message once, newest first, while new messages keep arriving |
| ChatPages.WalkForward | app/domain/chat/service.py:271-319 | Resynchronising from a message leaves no gap: it lists every later message once, those that arrive meanwhile included |
| ChatPages.WalkBackEnds | app/domain/chat/service.py:271-319 | Scrolling back until nothing more is announced ends, whatever arrives meanwhile |
| ChatPages.WalkForwardEnds | app/domain/chat/service.py:271-319 | Resynchronising ends if the room stays below some size |
| ChatPages.WalkIsUnique | app/domain/chat/service.py:271-319 | The answers determine the requests, so the walk that ends is the client's walk |
| ChatPages.BackRequests | app/domain/chat/service.py:271-319 | Scrolling back takes one request per full page and one for the rest |
| ChatPages.ForwardRequests | app/domain/chat/service.py:271-319 | Resynchronising takes one request per full page of what the room holds in the end, and at most one more |
| Replies.WalkInOrder | app/domain/comments/repository.py:57-74 | In both orders no reply is listed twice or out of order, and only replies some request could see, while visibility changes between requests |
| Replies.VisibleAre | app/domain/comments/repository.py:41-54 | A reply is shown if and only if it belongs to the root, is not deleted and not blinded, and is not by somebody blocked |
| Replies.WalkListsWhatStays | app/domain/comments/repository.py:312-337 | A reply that stays visible throughout is listed |
| Replies.WalkIsTheRest | app/domain/comments/service.py:182-221 | While nothing changes, the pages are exactly the visible replies beyond the cursor, in order |
| Replies.WalkEnds | app/domain/comments/service.py:182-221 | A walk in either order ends, whatever becomes visible or hidden meanwhile, as long as ids stay below some bound |
| Replies.RequestsMade | app/common/schemas.py:84-86 | On a fixed list a walk takes one request per full page and one for the rest |
| Replies.BuildTree | app/domain/comments/service.py:65-87 | Each root gets the previews of its own replies sorted newest first, the total its rows carry, and the flag |
| Replies.TreeShowsPreview | app/domain/comments/repository.py:264-309 | For any preview limit (the source uses 3) and any order of the query's rows, each root shows its newest replies, the number of all visible replies, and the flag exactly when the preview leaves some out |
| Replies.PreviewThenPages | app/domain/comments/service.py:182-221 | The preview and the pages from its last reply on are together all visible replies, newest first, once each |
| Closure.FindsTheFirst | scripts/uv_lock_snapshot.py:37-42 | An edge resolves to the first package in the file with its name and, if it gives one, its version, and to none only if there is none |
| Closure.KeyNamesPackage | scripts/uv_lock_snapshot.py:37-42 | Edges that resolve to the same name and version resolve to the same package |
| Closure.Reach | scripts/uv_lock_snapshot.py:57-69 | The worklist loop terminates on every lock, cyclic or not, with the result that the theorems below are about |
| Closure.RecordLearns | scripts/uv_lock_snapshot.py:65-68 | Every recorded edge adds a fact, which is why the walk ends |
| Closure.ReachIsSound | scripts/uv_lock_snapshot.py:57-69 | Every key and every dependency in the graph comes from a chain of edges from the start, and the walk fails only on a reachable edge that does not resolve |
| Closure.ReachIsClosed | scripts/uv_lock_snapshot.py:57-69 | Every direct dependency is a key, and every recorded dependency is a key |
| Closure.ReachIsComplete | scripts/uv_lock_snapshot.py:57-69 | If, wherever a package names under an extra only packages it also names elsewhere, the edges under the extra lead nowhere that their namesakes elsewhere do not lead, then the graph holds every reachable package with all its dependencies |
| Closure.NoExtrasIsConsistent | scripts/uv_lock_snapshot.py:47-55 | A lock whose packages ask for no extras of each other meets that condition |
| Closure.NestedExtrasAreMissed | scripts/uv_lock_snapshot.py:65-66 | Without the condition completeness fails: on a given lock with nested extras a reachable package is missing |
| Closure.RuntimeScope | scripts/uv_lock_snapshot.py:71-85 | In such a lock a package has runtime scope if and only if a chain of runtime edges leads to it, and the runtime graph is part of the whole |
| LikePattern.EscapesEachSpecialOnce | app/domain/posts/repository.py:82-84 | The three replacements in sequence escape every special character exactly once |
| LikePattern.EscapedIsLiteral | app/domain/posts/repository.py:82-84 | An escaped string matches itself and nothing else, whatever pattern follows |
| LikePattern.TokenMatchesLiterally | app/domain/posts/repository.py:100-114 | Whatever characters it holds, a token matches a text if and only if it occurs in it, up to case |
| Base62.Encode | app/core/ids.py:22-30 | The encoder writes the shortest numeral |
| Base62.Decode | app/core/ids.py:33-44 | The decoder answers the value, or the first of blank, invalid character and overflow in reading order |
| Base62.DecodedIsUnique | app/core/ids.py:33-44 | That description leaves exactly one answer to every text |
| Base62.DecodeInvertsEncode | app/core/ids.py:22-44 | Reading back a written id gives the id, for every 128-bit id |
| Base62.NumeralOfValue | app/core/ids.py:22-44 | Writing the value of a numeral without a leading zero gives the numeral back |
| Base62.EncodedLength | app/core/ids.py:22-30 | An id takes at most 22 characters |
| Base62.Parse | app/core/ids.py:59-72 | A public id is blank, else UUID text if it reads as such, else Base62 |
| Base62.UuidTextIsRead | app/core/ids.py:59-72 | UUID text, hyphenated as usual or not at all, is read as its 32 hexadecimal digits |
| Base62.StripTrims | app/core/ids.py:33-35 | Blanks around a public id do not matter |
| Base62.EncodedIsNotUuidText | app/core/ids.py:59-72 | A Base62 id is never taken for UUID text, whatever the hexadecimal reader accepts |
| Base62.PublishAndParse | app/common/schemas.py:10-15 | The id sent out in a response is the id that the next request is about |
| RateLimit.KeyFaresAlone | app/core/rate_limit.py:44-60 | In any run of calls on any keys, a key never evicted during its window is let through exactly as often as if it were alone |
| RateLimit.StoreKeepsTheWindow | app/core/rate_limit.py:44-60 | In any such run one window of the key lets through its limit and no more, or all hits if they are fewer, where a limit of 0 acts as 1 |
| RateLimit.StoreKeepsTwiceTheLimit | app/core/rate_limit.py:44-60 | In any such run any interval of one window length, both ends included, lets through at most twice the limit, whatever came before |
| RateLimit.FallbackAgrees | app/core/rate_limit.py:20-27 | The memory window answers every sequence of hits as INCR with EXPIRE on 1 would, if and only if the limit is positive or there is no hit |
| RateLimit.Memory.Earliest | app/core/rate_limit.py:40 | The key chosen has the window that ends first |
| RateLimit.Memory.EvictEarliest | app/core/rate_limit.py:39-41 | With only live windows left, the earliest to end go until there is room, and no more than that |
| RateLimit.Memory.Evict | app/core/rate_limit.py:32-41 | Afterwards there is room for a key; nothing goes while there was room, expired windows go first, and a live one goes only when needed, the earliest to end first |
| RateLimit.Memory.Check | app/core/rate_limit.py:44-60 | At most 10,000 keys; a key that was not evicted gets the entry and the answer of a hit on its old entry, an evicted or new one those of a first hit, all others stay as they were, and the waiting time is what is left of the window |
| Fanout.EveryRun | app/infra/pubsub.py:74-141 | In every run deliveries plus waiting sends of a message at a socket never exceed how often its user is addressed |
| Fanout.ServedAtMostAsAimed | app/domain/chat/service.py:215-235 | A socket gets a message at most as often as its user is among the two targets, across local sends, envelopes and listeners |
| Fanout.AtMostOnce | app/domain/chat/service.py:126-127 | A message to somebody else reaches each socket at most once, and no socket but those of its two people |
| Fanout.ReachesOtherInstances | app/infra/pubsub.py:121-141 | From every reachable state a message not published yet can reach any open socket of either of its people at any other instance |
| Fanout.ReachesOwnInstance | app/domain/chat/service.py:215-235 | From every reachable state a message can reach any open socket of either of its people at the sending instance without being published |
| Fanout.ToOneselfTwice | app/domain/chat/service.py:126-127 | Without the refusal of messages to oneself some run delivers a message twice to one socket |
| Listener.NoFalseAlarm | app/infra/pubsub.py:168-188 | The connection is given up only after more than 15 seconds without a receipt |
| Listener.SilenceIsNoticed | app/infra/pubsub.py:168-188 | After any traffic, a connection has been given up by any turn later than 15 seconds and one turn after the last receipt |
| Listener.GivesUpInTime | app/infra/pubsub.py:182-188 | The turn that gives up comes more than 15 seconds and at most 15 seconds and two turns after the last receipt |
| Listener.PauseDoubles | app/infra/pubsub.py:216-239 | The pause is half a second doubled once per unhealthy attempt in a row, at most 30 seconds, and starts again after a healthy one |

## Left out

- Closure.ReachIsComplete: the condition is proved sufficient, and a lock outside it that loses a package is given; that every lock outside it loses one is not claimed, since it depends on the order of the walk.
- Refresh.RotatesAtMostOnce: covers the script; the fallback of separate GET and SET after a script error gives no such guarantee by design.
- LeaseSafety.MutualExclusion: says nothing about a client that goes on after a Redis error without knowing the lock, as the code intends.
- RateLimit.StoreKeepsTwiceTheLimit: is about a key that is not evicted while its window lasts; such an eviction starts its window anew.
- LikeCounts.CountersAreExact: a like that outlasts the retention period, and a purge that waited for another one over the same user, can leave a counter wrong; a run shows each, and the exact condition is that of LikeDrift.ExactWhileNotMissed.
- Purge.Tables.Run: the set of purgeable users is fixed for the run; concurrent likes and purges are in the protocol of `Likes.dfy`.
- The flush lock of the view counter: flushes overlap freely in the model. A view is one that has passed the deduplication by viewer, which is not modelled.
- Idempotency: normalisation and fingerprint of the key, and a cached body that no longer validates.
- Comment counters, report counters, blinding and notifications.
- The cascade of a post deletion to comments and images beyond references and like rows.
- Base62: signs, underscores, blanks and other digits that Python's integer reader accepts in UUID text are a parameter.
- LIKE: collations and multi-character case folding; folding is a function on characters that fixes the three special ones.
- Search: validation of query length, hashtags and the combination of tokens.
- Offset pages of roots and posts, and the trending list.
- The dependency snapshot's JSON, and the joining of name and version into one string.
- The rejection gate in front of the limiter, and the choice between Redis, memory and passing through.
- The notification stream, connection limits per user, and closing of stalled sockets.
- Routers, schemas, configuration, metrics, logging, seeding, email and password handling: they pass values on or call libraries, and hold no state of the protocols above.
