# Verification of the feed distribution core

A Dafny model of how posts are distributed, priced, reviewed and rate-limited in the
backend, with proofs of what its design promises. `dafny verify dfyconfig.toml` checks it.

| file | what it models |
|---|---|
| `types.dfy`, `scripts.dfy` | the vocabulary of the feed; the Redis keys and the atomic Lua scripts |
| `machine.dfy` | the protocol as a state machine of single Redis commands: any number of workers and requests, crashes anywhere, reclaims, expiries |
| `no_op_lost.dfy`, `deliveries.dfy`, `placements.dfy`, `lifetimes.dfy`, `deadlines.dfy`, `outstanding.dfy`, `erasure.dfy` | what every run of that machine keeps |
| `runs.dfy`, `witnesses.dfy` | runs built command by command that show what it does not promise |
| `dispatch.dfy`, `fanout.dfy` | enqueue, retire, park, retry, recount, recipient selection and one worker pass, with each call one step and exact accounting |
| `worker_alone.dfy` | an uninterrupted worker pass or retry walk of the machine is what those calls do |
| `languages.dfy`, `audience.dfy`, `memberships.dfy`, `mirror_race.dfy`, `mirror_pairs.dfy`, `backfill.dfy` | the audience sets as a mirror of the tables, the running total and the mirror under interleaving, and the rebuild of delivery |
| `ledger.dfy`, `economy.dfy`, `probes.dfy` | tokens, counters, reviews, gifts, test posts and erasure: the books as values, and the operations that move them |
| `counter_race.dfy`, `probe_race.dfy` | one reader's counters and test posts when their requests overlap |
| `blocks.dfy`, `requests.dfy` | whole requests across those modules: publishing at the quoted price, a review and the test that may follow, the deletion of an account |
| `rounding.dfy`, `pricing.dfy`, `price_ranges.dfy`, `price_window.dfy`, `price_service.dfy` | the price controller, route prices, the price window and the observed range, with each call one step |
| `price_race.dfy`, `refresh_race.dfy`, `range_race.dfy`, `price_alone.dfy`, `price_runs.dfy` | price requests, refreshers and observers as a state machine of single commands, any number of them overlapping, and runs of it |
| `trust.dfy` | the Reviewer Trust score, bands and reach |
| `rate_limit.dfy` | the sliding window log |
| `usernames.dfy` | the username migration |

Distribution, pricing and the audience index each have two models. In the fine one every
command is a step and anything may happen between two steps; it carries the safety results
and says exactly when a promise survives overlapping requests. In the coarse one a call is
a step; it carries the exact accounting. For distribution both use the transition functions
of `scripts.dfy`, which the script methods are proved against. For distribution and pricing
an uninterrupted request of the fine model is proved to be one call of the coarse one
(`WorkerAlone.PassIsOneCall`, `WorkerAlone.WalkIsOneCallEach`, `PriceAlone.AloneIsOneCall`).
Objects the source updates in place (the Redis keys, the tables, the price keys, a reader's
probe keys, a rate budget) are classes whose methods are proved to make the transition that
the lemmas are about. Times are integers or reals that never decrease; settings are
parameters within their documented ranges; random choices are any choice the call allows.

Some claims in the source's comments do not hold as written. The model keeps the code and
states what does hold:

- "capped at FEED_QUEUE_MAX_SLOTS by construction" (`backend/app/api/posts.py:232-233`):
  with W concurrent placers the bound is slots - 1 + W, and it is attained
  (`Placements.QueueBound`, `Witnesses.BoundIsAttained`).
- `reviewed_count == forwarded_count + dropped_count == COUNT(post_reviews)`
  (`backend/app/api/posts.py:762-763`): with requests one at a time it exceeds the rows by
  exactly those erased with their posts (`Ledger.ReviewedCoversRows`,
  `Ledger.ReviewedCanExceedRows`). Overlapping reviews of one reader overwrite each other's
  increments, and neither equation survives (`CounterRace.OverlappingReviewsLoseOne`);
  `CounterRace.CommitLoses` is the exact loss.
- `ops:outstanding` is how many operations of a route are live only while its corrections
  balance (`Outstanding.ExactWhenBalanced`). It stays too high when a worker overtakes the
  request that minted an operation (`Witnesses.CountsCanDrift`) and falls short when two
  workers re-add one due retry (`Witnesses.CountsCanFallShort`); it is never negative.
- a delivered-to set is to cover one max-age of dwell and one of retries
  (`backend/app/core/config.py:189-214`); it does unless a walk stalls between its scan and
  its re-adding for longer than the set's life exceeds the two
  (`Lifetimes.ReaddedFindsTheSet`, `Witnesses.StallOutlivesTheSet`).
- `subs:total` is guarded against going negative on a re-run
  (`backend/app/feed/service.py:803-809`); it still dips below zero when a leave settles
  before the join it undoes (`Memberships.TotalCanDipBelowZero`); exactly when it is
  negative, `Memberships.NegativeTotalExactly` says.
- a retry deadline is not always "set once" (`backend/app/feed/service.py:541-543`): an
  operation whose first entry is taken over before it is parked gets one from each consumer
  (`Witnesses.TakeoverSetsTwoDeadlines`), and never more than that
  (`Deadlines.DeadlinesWithinHandouts`); no later park changes one.
- an erased post's tombstone need not outlast its operations: "no operation can still be
  chasing it by then" (`backend/app/feed/service.py:767-769`) fails for an entry that waits on
  the stream for a whole max-age (`Witnesses.ErasedPostIsDelivered`);
  `Erasure.ChasedExactly` is the exact condition.
- setting the languages is not a repair of every drift in a reader's memberships
  (`backend/app/api/users.py:188-190`): it repairs slices of subscribed channels and nothing
  else (`MirrorRace.SetRepairsExactly`), and overlapping an unsubscription it can itself put
  the reader back into a channel they left (`MirrorRace.UnsubscribeAgainstLanguages`,
  `MirrorRace.LeftChannelComesBack`). A subscription can likewise bring back a language given
  up, or outlive its own row (`MirrorPairs.OldLanguageStays`,
  `MirrorPairs.JoinsAChannelLeft`); the exact conditions are
  `MirrorPairs.SubscribeAgainstLanguages` and `MirrorPairs.SubscribeAgainstUnsubscribe`.
- a route's price is not "guaranteed for exactly as long as the base price it came from"
  (`backend/app/feed/service.py:320-324`) when two requests miss it at once
  (`PriceRuns.QuoteIsOverwritten`); exactly when it is, `PriceRace.QuoteStands` says.
- a quote is not always charged "exactly this until `expires_at`"
  (`backend/app/api/posts.py:621-622`): the expiry told is that of a snapshot read after the
  pricing, which can belong to the next window (`PriceRuns.QuoteOutlivesItsPrice`;
  `RefreshRace.QuotedExpiryIsFrozen` is the exact condition).
- the observed range is not always "exact within the current window"
  (`backend/app/feed/service.py:470`), and the script resets it for any other window, not
  only for an older one (`backend/app/feed/scripts.py:122-123`): an observer of the window
  before restarts it (`PriceRuns.LateObserverRestarts`, `RangeRace.RangeStaysExact`).
- a window is not "never shorter", however many processes poll
  (`backend/app/feed/service.py:300-303`): two that read the expired snapshot both replace it
  (`PriceRuns.RefreshersCutAWindowShort`). `RefreshRace.WindowStands` is the exact
  condition, and `RefreshRace.SnapshotsAreApart` what refreshes that do not overlap keep.
- one more correct probe can lower a score (`Trust.CorrectProbeCanHurt`); the exact
  condition is `Trust.OneMoreCorrect`.
- blind forwarding is not scored harder than blind dropping at every share, only from one
  half upward or where there is nothing to compare (`Trust.ForwardingIsPenalisedHarder`); and
  never forwarding costs nothing in a population that never forwards
  (`Trust.ExtremesAreFull`).
- the probe counter is not "incremented on every call" (`backend/app/core/probes.py:165`):
  a call made while a test is outstanding returns first (`Probes.CounterSkipsBlockedReviews`).
- an outstanding test does not keep a second one from being made while requests overlap
  (`backend/app/core/probes.py:160-162`): n requests that look before the first marks it make n
  (`ProbeRace.OverlapGivesAsManyTests`), and never more (`ProbeRace.TestsWithinOverlap`).

## Model

| member | source | states |
|---|---|---|
| `FeedScripts.Redis.Spend` | backend/app/feed/scripts.py:27-34 | a balance below the price is left alone and answered -1; otherwise it drops by exactly the price |
| `FeedScripts.Redis.Place` | backend/app/feed/scripts.py:55-72 | the script makes exactly the transition `Placed`: a push only when not queued and not had before, the free set and the delivered-to set with its expiry moved with it; -1 only for a refusal |
| `FeedScripts.Redis.Claim` | backend/app/feed/scripts.py:77-86 | the script makes exactly the transition `Claimed`, and tells whether the post was there |
| `FeedScripts.Redis.LRem` | backend/app/feed/scripts.py:77-80 | scanning from the head cuts out the first copy and nothing else |
| `FeedScripts.RemoveFirstTakesOne` | backend/app/feed/scripts.py:77-80 | a claim removes exactly one occurrence, as a multiset |
| `FeedScripts.RemoveFirstKeepsDistinct` | backend/app/feed/scripts.py:77-80 | after a claim the post is gone from a queue without repeats and every other post is still there |
| `FeedScripts.Redis.EnsureFree` | backend/app/feed/scripts.py:91-98 | a reader joins the free set exactly when their queue has room |
| `FeedScripts.Redis.Retire` | backend/app/feed/scripts.py:112-118 | a route's count drops by one with a floor at zero |
| `NoOpLost.NoOperationIsLost` | backend/app/feed/worker.py:213-237 | over every interleaving of any number of agents, with crashes, reclaims and duplicated retries: each minted operation has its outcome recorded, or has a copy of the same post, route, author and reach on the stream (unread or claimable) or in the retry set that no agent is about to remove |
| `NoOpLost.CopiesStayTrue` | backend/app/feed/worker.py:83-149 | every copy on the stream, in the retry set, in a worker's hands or in the rest of its batch, or in a retry walk or the rest of its list, has the post, route and author that were minted and the fan-out given then, however often it was parked; one left out or worth nothing is written out as what it stands for |
| `NoOpLost.StepSound` | backend/app/feed/worker.py:191-306 | every command of every agent keeps agents' memories true to the copies they came from |
| `NoOpLost.StepKeeps` | backend/app/feed/service.py:579-629 | every command keeps every operation; a removal is announced only once the operation is kept by other means |
| `NoOpLost.KeptCarries` | backend/app/feed/worker.py:213-237 | a copy outlives a command unless its removal was announced |
| `NoOpLost.RunKeeps` | backend/app/feed/worker.py:240-306 | both invariants hold along every run |
| `NoOpLost.ClaimForgetsTheGone` | backend/app/feed/worker.py:275-306 | a claim takes exactly those claimed ids off the pending list whose entry is gone |
| `Deliveries.AtMostOncePerLife` | backend/app/feed/scripts.py:40-72 | in every reachable state the pushes of a post to a reader are at most one more than the times that post's delivered-to set was lost |
| `Deliveries.HistoryCounts` | backend/app/feed/scripts.py:40-72 | what that is counted in: each placement that lengthens the queue is one push, each drop of a set that was there one loss |
| `Deliveries.QueuesHoldNoRepeats` | backend/app/feed/service.py:687-708 | no queue ever holds a post twice, even after a loss or with the exclusion off |
| `Deliveries.FreeSetIsExact` | backend/app/feed/scripts.py:66-98 | `free_queue` is exactly the readers made reachable and not purged since whose queue has room |
| `Deliveries.PlaceQueues` | backend/app/feed/scripts.py:55-72 | what one placement does to the queue it targets, and that it spares all others |
| `Deliveries.StepTidy` | backend/app/feed/scripts.py:55-98 | every step keeps the delivery count, the absence of repeats and the free set |
| `Placements.QueueBound` | backend/app/feed/worker.py:104-117 | with W agents, a queue plus the placements pending on it never exceed slots - 1 + W; one placer at a time stays within the slots |
| `Placements.ReadingBounded` | backend/app/feed/service.py:855-874 | selecting recipients only aims at readers who are free at that moment |
| `Placements.AuthorsNeverReceiveTheirOwn` | backend/app/feed/service.py:862-865 | with own posts excluded, an author is never pushed their post by any worker in any interleaving, if its row names them or its operations all do |
| `Placements.OperationsAreTrueToRows` | backend/app/api/posts.py:884-900 | in every reachable state every operation and every copy of it has the route in its post's row, and the author that row names for as long as it names one, whether a publication or a forward minted it |
| `Placements.ForwardMints` | backend/app/api/posts.py:884-900 | a forward of an ordinary queued post mints one operation with the route and author of its row and the fan-out given; any other review mints none |
| `Placements.ProbesStayPrivate` | backend/app/api/posts.py:798-825 | no operation of a test post is ever minted, so none is on the stream or in the retry set, and it is queued for its own reader or nobody: derived from where forwards come from |
| `Lifetimes.OutcomesAreEarned` | backend/app/feed/worker.py:86-188 | a recorded outcome is true: a delivery was pushed, an erasure announced, a deadline had passed, and an exhausted audience was measured and found covered |
| `Lifetimes.ExhaustedWasCovered` | backend/app/feed/service.py:925-947 | an operation given up as exhausted had, in some earlier reachable state of the same run, nobody in its audience who was not the author or served |
| `Lifetimes.RetriesAreBounded` | backend/app/feed/service.py:591-628 | a copy is re-added fewer than max-age / interval times |
| `Lifetimes.NeverReaddedAfterSeenExpires` | backend/app/core/config.py:189-214 | an operation first parked within one max-age of any moment is only re-added on a scan made before a delivered-to set refreshed at that moment expires, whether or not the set still exists; and the re-adding itself comes before that unless it trails the scan by more than the set's life exceeds two max-ages |
| `Lifetimes.SetsLastTheirTime` | backend/app/feed/scripts.py:60-66 | a delivered-to set that is gone was erased with its post, or a whole life has passed since the last push |
| `Lifetimes.ReaddedFindsTheSet` | backend/app/core/config.py:189-214 | so an operation re-added without such a stall finds the set of its post still there, unless the post was erased |
| `Witnesses.StallOutlivesTheSet` | backend/app/feed/service.py:591-628 | that condition is exact: with one unit of time more a run comes to re-add an operation, in time for its deadline, when the set of its served post is gone |
| `Erasure.ErasureLasts` | backend/app/feed/service.py:738-771 | an erasure is for good in every run: the post is never reviewed again; for a whole max-age a worker that takes an operation of it up ends it, and a walk begun after that drops each one first parked before the erasure |
| `Erasure.TombstoneEnds` | backend/app/feed/service.py:755-760 | a tombstone may go exactly one max-age after the erasure |
| `Erasure.OverAfterMaxAge` | backend/app/feed/service.py:764-771 | a max-age after an erasure nothing chases the post any more if no entry of it is on the stream, no agent is at work on one, and what waits was first parked before |
| `Erasure.ErasedPostIsOver` | backend/app/feed/service.py:764-771 | and once nothing does the post is never handed to anyone again in any run |
| `Witnesses.ErasedPostIsDelivered` | backend/app/feed/service.py:764-771 | the claim that by then nothing does fails: a run in which an entry waits that long and a post erased a max-age before is handed out |
| `Erasure.ChasedExactly` | backend/app/feed/service.py:764-771 | the exact condition, in every reachable state between requests: an erased post can be handed out again if and only if an entry of it is on the stream, or a retry of it is due before its deadline and that has not passed |
| `Erasure.ForgottenAuthorsStayForgotten` | backend/app/core/account_deletion.py:150-207 | a post whose author was forgotten never has one again |
| `Deadlines.DeadlinesNeverChange` | backend/app/feed/service.py:549-565 | over every run the deadline of a copy, on the stream, in the retry set or in an agent's hands, is one that a first park of its operation set, however often it was parked and re-added |
| `Deadlines.HandoutsAreCounted` | backend/app/feed/worker.py:240-306 | each consumer that is handed an entry, by a read or by a claim that finds it, is counted once |
| `Deadlines.DeadlinesWithinHandouts` | backend/app/feed/worker.py:275-306 | an operation has at most as many deadlines as consumers were handed its first entry |
| `Deadlines.OneDeadlineWithoutTakeover` | backend/app/feed/service.py:549-565 | so unless that entry is taken over, all its copies in the retry set have one deadline |
| `Deadlines.ReaddedKeepsDeadline` | backend/app/feed/service.py:604-628 | and a copy that is re-added carries it still |
| `Witnesses.TakeoverSetsTwoDeadlines` | backend/app/feed/worker.py:275-306 | a run in which the entry is taken over before it is parked, and the operation is parked twice with two deadlines |
| `Witnesses.BoundIsAttained` | backend/app/api/posts.py:230-233 | the queue bound is tight for every W and slot count, by publications and fan-out alone, so two workers do exceed the cap the comment claims |
| `Outstanding.CountIsAccounted` | backend/app/feed/service.py:114-152 | in every reachable state a route's count is its live operations, less those not counted yet, plus those ended and not retired yet, less retires beyond the first of an operation, plus retires the floor swallowed |
| `Outstanding.ExactWhenBalanced` | backend/app/feed/service.py:134-152 | it is exact if and only if those corrections balance |
| `Outstanding.NeverNegative` | backend/app/feed/scripts.py:112-118 | no run makes a route's count negative |
| `Witnesses.CountsCanDrift` | backend/app/feed/service.py:134-137 | a run in which a worker retires an operation before its count is added leaves a count of one with no operation anywhere |
| `Witnesses.CountsCanFallShort` | backend/app/feed/service.py:581-628 | a run in which two workers re-add one due retry, which is then retired twice, leaves a count of zero with an operation on the stream |
| `Dispatch.MintKeepsExact` | backend/app/feed/service.py:114-137 | minting adds one operation and one to its route's count |
| `Dispatch.ParkKeepsExact` | backend/app/feed/service.py:522-565 | parking moves an operation from the stream to retry and no count |
| `Dispatch.ReaddKeepsExact` | backend/app/feed/service.py:604-628 | re-adding moves it back and no count |
| `Dispatch.EndKeepsExact` | backend/app/feed/service.py:140-152 | a terminal outcome on the stream lowers its route's count, which was positive, by one |
| `Dispatch.DropKeepsExact` | backend/app/feed/service.py:592-603 | giving up an overdue operation does the same from the retry set |
| `Dispatch.EnqueueOperation` | backend/app/feed/service.py:114-137 | one new entry with the post, route, author and fan-out, and one more on its route's count; exact counts stay exact |
| `Dispatch.ParkedOp` | backend/app/feed/service.py:549-565 | parking keeps post, route and author, writes out the fan-out (the one given if it is at least one, the default if none was), and sets the deadline on the first park only |
| `Dispatch.AbandonOverdue` | backend/app/feed/service.py:592-603 | the member is dropped, its route's count drops by one, and counts stay exact |
| `Dispatch.AddBack` | backend/app/feed/service.py:604-628 | a due member goes back on the stream with the same post, route, author and fan-out |
| `Dispatch.RescheduleDueRetries` | backend/app/feed/service.py:568-629 | of the due members exactly those whose deadline is still to come, or that have none, are each on one new stream entry with post, route, author, fan-out and deadline as they were (or one set now); their number is told, the overdue are on none, no other member or entry changes, and counts stay exact |
| `Dispatch.CountStream` | backend/app/feed/service.py:1169-1176 | recounting the stream gives each route its number of entries |
| `Dispatch.ReseedOutstandingOps` | backend/app/feed/service.py:1152-1186 | from any drift the counts become exact for every route, and the total is told |
| `Fanout.SelectRecipients` | backend/app/feed/service.py:814-874 | recipients are distinct, in the route's audience, free, not the author and not served; at most k, and exactly min(k, eligible) when the sample covers the audience |
| `Fanout.SRandMember` | backend/app/feed/service.py:855-858 | a sample is distinct members, as many as asked or there are |
| `Fanout.GateSound` | backend/app/feed/service.py:925-940 | two sizes rule exhaustion out: the served plus one author cannot cover a larger audience |
| `Fanout.HasEligibleRecipient` | backend/app/feed/service.py:877-947 | the fast gate answers no exactly when the audience is non-empty and each member is the author or served, as the settings count |
| `Fanout.ExhaustedByReader` | backend/app/feed/service.py:925-947 | exhaustion reader by reader: somebody is in the audience, and each one there is the author or has been served |
| `Fanout.ExhaustionLasts` | backend/app/feed/worker.py:136-188 | once exhausted, a route stays so until it gains a reader, empties, or the delivered-to set loses one |
| `Fanout.PlacedAllDelivers` | backend/app/feed/worker.py:104-117 | placing for distinct readers new to the post queues it first for each, records each, and touches nobody else |
| `Fanout.PlaceAll` | backend/app/feed/worker.py:104-117 | the placing loop delivers to every selected reader |
| `Fanout.Deliver` | backend/app/feed/worker.py:83-117 | at most the operation's own fan-out is delivered, each to a free member of the route's audience who is not the author and has not had the post; when the sample covers the audience fewer are served only if nobody else is all of that |
| `Fanout.ProcessOperation` | backend/app/feed/worker.py:53-188 | the same for a whole operation; it is parked, with fan-out and deadline kept, exactly when the post lives, nothing was delivered and the audience is empty or holds someone neither the author nor served, and is retired otherwise |
| `Fanout.ProcessAndConfirm` | backend/app/feed/worker.py:191-237 | after one entry the counts are exact again: it ended and its count dropped, or it waits in retry and no count moved |
| `WorkerAlone.PassIsOneCall` | backend/app/feed/worker.py:53-237 | run through without interruption, whatever sample is drawn, the single commands of a worker on one entry serve whom the one-call model says and leave queues, delivered-to sets, retry set, counts and outcome as it says |
| `WorkerAlone.WalkIsOneCallEach` | backend/app/feed/service.py:568-629 | so does a walk over due retries with each of them: back on the stream if it is in time, given up and retired if it is not |
| `Languages.SanitizedIsUsable` | backend/app/core/languages.py:57-71 | sanitising never leaves a reader without a language, and repeats or invents none |
| `Languages.SanitizedFallsBack` | backend/app/core/languages.py:57-71 | a request for nothing configured leaves the default language alone, or the first configured one |
| `Languages.SanitizedIsCanonical` | backend/app/core/languages.py:57-71 | it depends only on which configured languages were asked for |
| `Languages.SanitizedKeepsRequest` | backend/app/core/languages.py:57-71 | a request for configured languages is kept as asked |
| `AudienceIndex.MirrorIsDue` | backend/app/feed/service.py:952-977 | a membership is in the mirror exactly when the subscription and, for a slice, the language call for it |
| `AudienceIndex.AudienceIsReaders` | backend/app/feed/keys.py:88-110 | in the mirror a route's audience is exactly its channel's subscribers who read its language |
| `AudienceIndex.ChannelIsUnionOfSlices` | backend/app/feed/keys.py:88-110 | a channel's own set is the union of its language slices |
| `AudienceIndex.JoinedSize` | backend/app/feed/service.py:967-973 | one subscription is one membership plus one per language |
| `AudienceIndex.MirrorSize` | backend/app/feed/service.py:1257-1274 | the sizes of all audience sets add up to the sum over subscriptions of one plus the languages |
| `AudienceIndex.SyncSubscribe` | backend/app/feed/service.py:952-977 | all sets of the channel joined, the total moved by the memberships that were new, the reader reachable when there is room |
| `AudienceIndex.SyncUnsubscribe` | backend/app/feed/service.py:980-1001 | the channel's set and every configured slice left, the total moved by what was really there |
| `AudienceIndex.SyncContentLanguages` | backend/app/feed/service.py:1004-1046 | exactly the configured slices of the reader's channels are rewritten to the accepted languages; the total moves by the net change |
| `AudienceIndex.PurgeUser` | backend/app/feed/service.py:773-809 | queue, balance and free mark gone, every set of the channels left, the total moved by what was really there |
| `AudienceIndex.SubscribeChannel` | backend/app/api/channels.py:95-126 | the request keeps the index a mirror of the tables |
| `AudienceIndex.LeavingMirrors` | backend/app/feed/service.py:995-1001 | clearing a channel's sets is what losing the subscription means for the mirror |
| `AudienceIndex.UnsubscribeChannel` | backend/app/api/channels.py:133-158 | the request keeps the index a mirror of the tables |
| `AudienceIndex.RewritingMirrors` | backend/app/feed/service.py:1024-1046 | rewriting the slices is what changing languages means for the mirror |
| `AudienceIndex.StoreLanguages` | backend/app/api/users.py:169-177 | the revision moves exactly when the canonical form differs from the stored one |
| `AudienceIndex.SetContentLanguages` | backend/app/api/users.py:133-203 | run on its own: an empty or unknown request changes nothing; otherwise exactly the requested languages are stored and the index mirrors the tables again |
| `MirrorRace.MirrorHoldsAtRest` | backend/app/api/channels.py:95-162 | a reader's subscriptions, unsubscriptions and language choices, command by command: those that do not overlap leave the memberships the mirror of the tables whenever none is under way |
| `MirrorRace.UnsubscribeAgainstLanguages` | backend/app/api/channels.py:133-158 | an unsubscription and a choice of languages at once, in any order of their commands: the mirror is right in the end if and only if the channel's sets were not cleared while the other was about to rewrite a list still naming it |
| `MirrorRace.LeftChannelComesBack` | backend/app/api/users.py:179-196 | a run in which they were: the reader is back in a slice of a channel they left |
| `MirrorPairs.SubscribeAgainstUnsubscribe` | backend/app/api/channels.py:95-162 | a subscription and an unsubscription at once, in any order of their commands, the look for an existing row among them: the mirror is right in the end if and only if the one that wrote the sets last is the one the table agrees with |
| `MirrorPairs.SubscribeAgainstLanguages` | backend/app/api/channels.py:95-126 | a subscription and a choice of languages at once: the mirror is right in the end if and only if nothing was to change, or the choice rewrote the channel after the subscription wrote its sets, or before and gave up no language the subscription knew |
| `MirrorPairs.JoinsAChannelLeft` | backend/app/api/channels.py:107-126 | a run after which the reader is in every set of a channel they are not subscribed to |
| `MirrorPairs.OldLanguageStays` | backend/app/api/channels.py:124-126 | a run after which the reader is in a slice of a language they gave up |
| `MirrorRace.SetRepairsExactly` | backend/app/api/users.py:188-196 | setting the languages repairs a reader's memberships exactly when all that was wrong was in slices of channels they are subscribed to |
| `AudienceIndex.PurgingMirrors` | backend/app/feed/service.py:794-809 | clearing every channel is what losing the account means for the mirror |
| `AudienceIndex.RebuildMemberships` | backend/app/feed/service.py:1257-1275 | memberships are re-added and the total set from the tables; the result is the mirror exactly when Redis held nothing beyond it |
| `Memberships.EveryMembershipIsAccounted` | backend/app/feed/service.py:967-973 | over every interleaving, memberships gained equal what the total, unsettled requests and dead requests account for |
| `Memberships.TotalIsExactAtRest` | backend/app/feed/service.py:1033-1046 | with no request between its two steps the total is off only by what dead requests never applied |
| `Memberships.NegativeTotalExactly` | backend/app/feed/service.py:803-809 | the total is negative if and only if what requests have still to add, and what dead ones never added, exceeds the memberships there are |
| `Memberships.NegativeTotalMeansOwed` | backend/app/feed/service.py:803-809 | so only while an addition is owed or was lost |
| `Memberships.TotalCanDipBelowZero` | backend/app/feed/service.py:995-1001 | a leave settled before the join it undoes takes the total to minus one |
| `Ledger.BooksBalance` | backend/app/api/posts.py:781-872 | over every run of requests from sound books each balance is the grant plus reviews kept, gifts received and probes answered less prices charged, and is not negative; every counter is the number of entries it stands for |
| `Ledger.BalanceIsEarned` | backend/app/api/posts.py:473-489 | the same for one account after any run from nothing, with reviewed = forwarded + dropped = kept + given |
| `Ledger.SupplyIsIssued` | backend/app/api/posts.py:865-872 | over any run the supply of tokens is what was issued: a review issues one, gifted or not |
| `Ledger.StepKeeps` | backend/app/api/posts.py:737-872 | every request keeps the books sound |
| `Ledger.JudgeIsNew` | backend/app/api/posts.py:849-858 | no review row means no entry was ever made, so the unique constraint is enough |
| `Ledger.JudgeKeeps` | backend/app/api/posts.py:827-872 | a committed review moves both sides' counters and one balance in step |
| `Ledger.PublishKeeps` | backend/app/api/posts.py:473-489 | a charged publication keeps the books; superusers are not charged |
| `Ledger.AnswerKeeps` | backend/app/api/posts.py:798-800 | answering a test post earns one token and moves no counter |
| `Ledger.EraseKeeps` | backend/app/core/account_deletion.py:150-207 | erasing an account leaves every remaining account's books sound |
| `Ledger.ReviewedCoversRows` | backend/app/api/posts.py:757-765 | a reviewed count is the rows plus those erased from under it; it is the rows exactly when no reviewed post was erased |
| `Ledger.PostCountersCoverRows` | backend/app/api/posts.py:835-848 | a post's counters are its rows plus those of erased reviewers, and exactly its rows while reviewers remain |
| `Ledger.ReviewedCanExceedRows` | backend/app/core/account_deletion.py:155-173 | a run ending in an erasure leaves a reviewed count of one with no row |
| `Ledger.RebuildForgivesSpending` | backend/app/feed/service.py:1223-1255 | a rebuilt balance is the live one plus what was spent less probe answers, corrected by erased gifts alone |
| `Economy.RegisterAccount` | backend/app/deps/users.py:120 | a new account starts with all counters at nothing and the grant added to its balance |
| `Economy.Charge` | backend/app/api/posts.py:473-489 | the price is taken, and exactly the price, whenever the balance is at least that much; superusers pay nothing |
| `Economy.ClaimForReview` | backend/app/api/posts.py:781-796 | a missing post and a disallowed gift are refused before the queue is touched; then only a queued post goes on |
| `Economy.CommitReview` | backend/app/api/posts.py:827-858 | the row, both sides' counters and nothing else, or nothing at all when a row exists |
| `Economy.CountReview` | backend/app/api/posts.py:835-848 | the reviewer's three counters and the post's, by kind and gift |
| `CounterRace.CountersNeverExceedRows` | backend/app/api/posts.py:834-848 | however one reader's reviews overlap, none of their counters ever shows more than there are rows |
| `CounterRace.CommitLoses` | backend/app/api/posts.py:834-848 | the exact loss: a commit leaves missing what was missing when its request loaded the row, and every review committed since |
| `CounterRace.ExactAfterCommit` | backend/app/api/posts.py:834-849 | over any run the reviewed count is exact after a commit if and only if its request loaded an exact count and no other review was committed in between |
| `CounterRace.SerialReviewsAreExact` | backend/app/api/posts.py:757-765 | reviews of one reader that do not overlap keep all three counters exact, and reviewed = forwarded + dropped |
| `CounterRace.OverlappingReviewsLoseOne` | backend/app/api/posts.py:834-848 | a run of a forward and a drop at once: two rows, a reviewed count of one, and not even the sum of the other two |
| `Economy.CreditReview` | backend/app/api/posts.py:866-872 | one token, to the author when gifted, else to the reviewer |
| `Economy.AnswerProbe` | backend/app/core/probes.py:304-348 | a recognised test is recorded once, as correct exactly when the answer is the one expected, and earns a token; an unrecognised one earns without a record |
| `Economy.ReviewClaimed` | backend/app/api/posts.py:827-900 | commit, one credit, and for a forward exactly one new stream entry with the post, the route and author of its row and the fan-out given |
| `Economy.ReviewPost` | backend/app/api/posts.py:781-900 | which of seven outcomes a review has, by the first obstacle met, and for each exactly what it leaves in the books and the queue; a committed forward adds exactly one stream entry with the post, the route and author of its row and the fan-out given, and no other review adds any |
| `Economy.OutcomeIsFirstObstacle` | backend/app/api/posts.py:781-858 | the seven outcomes told apart: no such post, a gift of a test or without an author or to oneself, not queued, a test answered before, a test answered, reviewed before, committed |
| `Economy.EnteredAsGiven` | backend/app/api/posts.py:798-858 | what is entered is the answer, as correct exactly when it is the one expected, or the review as it was given, and nothing else |
| `Economy.ReviewKeepsBooks` | backend/app/api/posts.py:781-872 | however it is decided, a review keeps the books sound |
| `Economy.DismissMissingPost` | backend/app/api/posts.py:328-355 | a slot is cleared only when its post is gone and queued |
| `Economy.FreshProbeLands` | backend/app/core/probes.py:211-251 | a placement of a fresh id is never refused, and the queue stays within its slots |
| `Requests.CheckPublication` | backend/app/api/posts.py:404-450 | the refusals of a publication before its price, each exactly when the earlier ones do not apply |
| `PostBlocks.CheckBlocks` | backend/app/api/posts.py:411-435 | the checks on blocks pass exactly when there are some and not too many, no text is blank, and every upload is shown by exactly one block |
| `Requests.CreatePost` | backend/app/api/posts.py:404-555 | a refusal changes nothing; past those the route is priced, and exactly when the balance is at least that price it is charged, the row added under its author's name and the operation sent out in it |
| `Requests.QuotedIsCharged` | backend/app/api/posts.py:473-489 | a quote is what publishing takes from the balance, with any other requests in between, unless one that had already missed the route rewrote it |
| `Requests.ChooseTest` | backend/app/core/probes.py:190-230 | a test is a subscribed channel, a language read that has wordings, and a wording not shown lately; there is one exactly when the reader subscribes to something and reads such a language |
| `Requests.RollForTest` | backend/app/core/probes.py:157-273 | the roll after a review: a test post is written and placed exactly when the roll wins, one can be made and the queue has room, and remembered exactly when it was placed |
| `Requests.Review` | backend/app/api/posts.py:781-905 | a whole review: a committed forward adds one stream entry with the route and author of the post's row; one test follows exactly when the review was committed, the roll wins, one can be made and the queue has room, and an answer ends the outstanding test |
| `Requests.ReviewAndFanOut` | backend/app/feed/worker.py:83-117 | a review and the worker pass over what it minted: only a committed forward is handed out, to no more readers than it was given, each in the audience of the post's route, never to its author, and to nobody fewer while another reader could have it and the sample covers the audience |
| `Requests.QueueDoesNotGrow` | backend/app/api/posts.py:793-905 | however a review ends and whether or not a test follows, the reader's queue is not longer than before |
| `Requests.DeleteAccount` | backend/app/core/account_deletion.py:83-215 | rows, balance, queue, free mark, every audience set and the probe keys go; the index mirrors the tables; tombstones and dropped delivered-to sets exactly when the posts go too |
| `Economy.RebuildTokens` | backend/app/feed/service.py:1223-1255 | every user's balance is reset from the tables and no other |
| `Probes.ProbeKeys.ShouldMint` | backend/app/core/probes.py:157-175 | the roll wins exactly when tests are on, none is out, this is at least the gap-th review since the last and the dice say so; only a review made while none is out is counted |
| `Probes.ProbeKeys.PickVariant` | backend/app/core/probes.py:142-154 | a wording not shown lately unless all were |
| `Probes.ProbeKeys.RecordMint` | backend/app/core/probes.py:253-262 | the test blocks until its time is over, the gap restarts, and the wording is put before the ones remembered, as many as fit |
| `Probes.TestsAreSpaced` | backend/app/core/probes.py:170-175 | over any run of one request at a time there are at least `gap` reviews to every test |
| `Probes.OneTestAtATime` | backend/app/core/probes.py:168-171 | with one request of a reader at a time: no test is minted before the outstanding one is answered or expires |
| `Probes.MintBlocksForItsTime` | backend/app/core/probes.py:253-262 | after a test no other is minted for its whole time whatever is reviewed, and one can be as soon as that is over |
| `Probes.AnswerUnblocks` | backend/app/core/probes.py:304-320 | an answer ends that at once |
| `ProbeRace.TestsWithinOverlap` | backend/app/core/probes.py:157-262 | however many requests of a reader overlap: while a test is outstanding and unanswered, no more tests are placed than requests had got past the look for one before |
| `ProbeRace.NoSecondTest` | backend/app/core/probes.py:168-171 | so with none past it there is no second test before the first is answered or expires |
| `ProbeRace.OverlapGivesAsManyTests` | backend/app/core/probes.py:157-262 | and the bound is reached: for every number of overlapping requests some run gives the reader that many tests at once |
| `ProbeRace.AloneIsOneReview` | backend/app/core/probes.py:157-262 | a request that nothing interrupts makes exactly the roll and the mark of the one-request model |
| `Probes.CounterSkipsBlockedReviews` | backend/app/core/probes.py:164-171 | between two tests the counter counts the reviews made while none was out, which is every review only if none was made while one was |
| `Probes.BlockedReviewIsNotCounted` | backend/app/core/probes.py:168-170 | one review while a test is out leaves the counter as it was |
| `Probes.RememberedStayDistinct` | backend/app/core/probes.py:142-154 | with more wordings than are remembered, none repeats among the remembered |
| `Backfill.SeedSeen` | backend/app/feed/service.py:1125-1149 | the delivered-to sets gain exactly the reviews and expire anew |
| `Backfill.SeededGuards` | backend/app/feed/service.py:1125-1149 | after it no reviewed post can be pushed to its reviewer |
| `Backfill.NewestFirst` | backend/app/feed/service.py:1101-1113 | the newest `limit` of the offered posts, newest first |
| `Backfill.PlacedEachArrive` | backend/app/feed/service.py:1114-1120 | a queue gains in front exactly the posts not had before, each once |
| `Backfill.BackfillQueue` | backend/app/feed/service.py:1049-1120 | a full queue gets nothing; otherwise the newest posts of the channel that are in a language read or none, unreviewed, unqueued, no test and not the reader's own are chosen, as many as there are slots free, and those the reader has not had go in front of the queue, oldest first; nobody else's is touched |
| `Pricing.PriceMovesByOne` | backend/app/feed/pricing.py:34-54 | one tick moves the price by at most one, within its range |
| `Pricing.BacklogMovesPrice` | backend/app/feed/pricing.py:22-54 | the price rises below its maximum exactly when the backlog exceeds the healthy one, a share of the active readers with a floor, by more than the dead band, falls above its minimum exactly when it is short of it by more than that, and stands otherwise |
| `Pricing.ReadersEasePrices` | backend/app/feed/pricing.py:22-54 | ten waiting operations raise the price with nobody active and lower it with eighty readers |
| `Pricing.PriceRisesWithBacklog` | backend/app/feed/pricing.py:34-54 | more backlog never makes the next price lower |
| `Pricing.PriceFallsWithReaders` | backend/app/feed/pricing.py:22-54 | more readers never make it higher, although the target and the dead band move together |
| `Pricing.ConstantLoadWalks` | backend/app/feed/pricing.py:34-54 | under one load the price walks one a tick to the bound on its side, or stands |
| `Pricing.ConstantLoadSettles` | backend/app/feed/pricing.py:34-54 | so it is monotone and fixed within MAX - MIN ticks |
| `Pricing.FactorInBand` | backend/app/feed/pricing.py:57-101 | a route's factor lies within the band |
| `Pricing.RoutePriceRises` | backend/app/feed/pricing.py:104-131 | a dearer base or longer backlog never makes a route cheaper |
| `Pricing.RoutePriceFalls` | backend/app/feed/pricing.py:104-131 | a larger audience never makes it dearer, among routes that have one |
| `Pricing.RoutePriceInBand` | backend/app/feed/pricing.py:104-131 | every route price lies in the rounded band around the base, which lies there too |
| `Pricing.NeutralRouteCostsBase` | backend/app/feed/pricing.py:57-131 | a route carrying exactly its share, or with nothing to compare, costs the base price |
| `PriceRanges.FoldedIsExact` | backend/app/feed/scripts.py:145-161 | the stored range is the exact least and greatest of the prices folded in for its window |
| `PriceRanges.ExtremesSuffice` | backend/app/feed/service.py:419-437 | sending only the extremes widens a range exactly as far as sending every price |
| `PriceRanges.RescaledHoldsCurrent` | backend/app/feed/service.py:440-459 | a rescaled range stays in bounds and holds the current base |
| `PriceRanges.RescaledOntoItself` | backend/app/feed/service.py:440-459 | onto the same base a range is carried over unchanged |
| `PriceRanges.RescaledInOrder` | backend/app/feed/service.py:440-459 | a wider range rescales to a wider one |
| `PriceWindow.QuoteIsCharged` | backend/app/feed/service.py:311-394 | with each call one step: once a route is answered with a price while the snapshot expires at some moment, every later answer before it is the same, whatever is called and however load moves |
| `PriceWindow.RefreshKeeps` | backend/app/feed/service.py:214-274 | a refresh after expiry opens a strictly later window in which nothing is computed yet |
| `PriceWindow.SilenceForgets` | backend/app/feed/service.py:232-245 | after a whole time to live without a call the next price is the minimum or one above |
| `PriceWindow.RunKeeps` | backend/app/feed/service.py:205-437 | every call keeps snapshot, frozen prices and ranges consistent |
| `PriceWindow.RangeIsExact` | backend/app/feed/service.py:462-499 | with each call one step: within a window a range read is the exact least and greatest of every price computed so far |
| `PriceWindow.RangeInBand` | backend/app/feed/service.py:462-499 | and those prices lie in the band around the base |
| `PriceWindow.CarriedRangeHoldsBase` | backend/app/feed/service.py:462-499 | a range carried from an earlier window holds the current base |
| `PriceWindow.ChannelWithinAll` | backend/app/feed/service.py:397-437 | a channel's range lies within the range over all routes |
| `PriceWindow.EveryRangeIsExact` | backend/app/feed/service.py:462-499 | so it is after any calls in order of time since the keys were empty |
| `PriceRace.PricesStayInRange` | backend/app/feed/service.py:214-394 | however price requests overlap, every base and every frozen price is within the bounds |
| `PriceRace.StandingIsFound` | backend/app/feed/service.py:346-361 | a price stands until a moment exactly when every look before it finds that price as long as nobody writes |
| `PriceRace.AnsweredStands` | backend/app/feed/service.py:346-388 | a price found or just frozen is answered, and stands until the expiry written with it |
| `PriceRace.QuoteStands` | backend/app/feed/service.py:311-394 | command by command, with any number of requests overlapping: a price that stands stays its route's price until it expires if and only if no request that had already missed the route rewrites it, with another price or an earlier expiry, in the meantime |
| `PriceRace.UnsharedQuoteStands` | backend/app/feed/service.py:311-394 | so with no other miss of the route in flight it stands in every run |
| `PriceRace.AnsweredAgain` | backend/app/feed/service.py:346-361 | and a later request that looks before the expiry is answered that price |
| `PriceRuns.QuoteIsOverwritten` | backend/app/feed/service.py:346-394 | a run in which two requests miss a route: one answers 10 until 60, and before that a third is answered 15 |
| `RefreshRace.WindowStands` | backend/app/feed/service.py:290-308 | a published snapshot keeps its whole window if and only if no request that had already decided to refresh publishes another before its expiry |
| `RefreshRace.EveryRefreshIsOneStep` | backend/app/feed/service.py:232-245 | however refreshes overlap, every snapshot is one price step from the last one set before its refresh read the price, or from the minimum when that key was gone by then |
| `RefreshRace.SnapshotsAreApart` | backend/app/feed/service.py:214-308 | in every run whose refreshes do not overlap, snapshots are at least one interval apart; while the key of one is alive as the next is set the price moves by at most one, and otherwise one step from that price or, if the key was gone when the refresh read it, from the minimum |
| `RefreshRace.BaseDriftsSlowly` | backend/app/feed/service.py:214-308 | so while each key is alive as the next snapshot is set, the base moves at most one step per interval |
| `PriceRuns.RefreshersCutAWindowShort` | backend/app/feed/service.py:290-308 | whatever the settings, two refreshers that both read the expired snapshot publish at one moment: a window cut to nothing and a base moved two steps |
| `RefreshRace.QuotedExpiryIsFrozen` | backend/app/api/posts.py:632-641 | a quote is told with the expiry of a snapshot read after the pricing: where refreshes do not overlap that is the expiry the price was frozen with if and only if no snapshot was set in between |
| `RefreshRace.QuotedExpiryStands` | backend/app/api/posts.py:632-641 | and if none was, it is, however refreshes overlap |
| `PriceRuns.QuoteOutlivesItsPrice` | backend/app/api/posts.py:632-641 | a run in which one was: 10 is quoted until 120, stands until 60, and the route costs 15 at 60 |
| `RangeRace.HoldingIsRead` | backend/app/feed/service.py:470-499 | a range that is exactly the spread of the window's prices is read as their least and greatest |
| `RangeRace.RangeStaysExact` | backend/app/feed/service.py:397-437 | command by command, while a snapshot keeps its window: a scope's range stays exactly the spread of the prices of that window folded in so far if and only if no request that held a snapshot of another window folds its prices in |
| `RangeRace.UndisturbedRangeIsExact` | backend/app/feed/service.py:397-437 | so with no such observer in flight it is exact in every such run |
| `RangeRace.NewWindowHolds` | backend/app/feed/scripts.py:145-149 | a window starts with nothing folded in, and so exact |
| `PriceRuns.LateObserverRestarts` | backend/app/feed/scripts.py:145-149 | a run in which an observer of the window before comes late: 10 to 10 is read when the window's one price is 15 |
| `PriceAlone.AloneIsOneCall` | backend/app/feed/service.py:311-437 | a price request run through without interruption makes exactly the transition of the one-call model, observed ranges included, and answers the same prices |
| `PriceService.PriceKeys.RefreshSnapshot` | backend/app/feed/service.py:214-274 | the call publishes the next snapshot |
| `PriceService.PriceKeys.GetSnapshot` | backend/app/feed/service.py:277-287 | a live snapshot is read, a missing one published |
| `PriceService.PriceKeys.MaybeRefreshSnapshot` | backend/app/feed/service.py:290-308 | a snapshot is replaced only once it has expired |
| `PriceService.PriceKeys.PriceRange` | backend/app/feed/scripts.py:145-161 | the script's loop leaves the spread that folding every price gives |
| `PriceService.PriceKeys.ObservePrices` | backend/app/feed/service.py:397-437 | every scope's range is widened by exactly the new prices that concern it |
| `PriceService.PriceKeys.RoutePrices` | backend/app/feed/service.py:311-394 | each route asked for is answered, from the frozen price or computed, and what was computed is frozen and observed |
| `PriceService.PriceKeys.ReadRange` | backend/app/feed/service.py:462-499 | the window's own range, an earlier one rescaled, or none |
| `Trust.ScoreInRange` | backend/app/core/trust.py:217-239 | the score is within 0..100 by itself, without its clamp |
| `Trust.NoEvidenceIsNeutral` | backend/app/core/trust.py:91-138 | no probes and little reviewing score exactly 50 |
| `Trust.AnomalyOnlyPullsToNeutral` | backend/app/core/trust.py:193-239 | anomaly never raises a score and never takes it below min(50, the score without it) |
| `Trust.PacePenaltyIsExact` | backend/app/core/trust.py:142-157 | there is no penalty for pace exactly while the hasty share is within the tolerance, and the whole of it exactly when every paced review was hasty |
| `Trust.SkewPenaltyIsExact` | backend/app/core/trust.py:160-190 | there is none for skew exactly while the reader's own forward rate is within the tolerance of the population's, or there is nothing to compare |
| `Trust.CeilingIsExact` | backend/app/core/trust.py:193-214 | there is a ceiling exactly when there are reviews and their pace or forward rate is beyond its tolerance; it takes the whole bonus exactly at full confidence with penalties of at least one together |
| `Trust.BonusIsWithheldExactly` | backend/app/core/trust.py:217-239 | a base is lowered exactly when it is above neutral and there is such an anomaly |
| `Trust.HasteNeverHelps` | backend/app/core/trust.py:142-239 | more hasty reviews among as many paced ones never raise a score |
| `Trust.AnomalousIsNeutralAtBest` | backend/app/core/trust.py:193-239 | with enough reviews, all paced ones hasty or a forward rate at an extreme the population does not share, the score is the lesser of 50 and the score without it |
| `Trust.SpottingTestsIsNotEnough` | backend/app/core/trust.py:200-205 | a reader who answers every test and reviews 200 posts scores 100 and reaches four, but 50 and three if they rush every post |
| `Trust.ScoreRisesWithCorrect` | backend/app/core/trust.py:91-117 | more correct among as many answered never lowers the score |
| `Trust.LowBandMeansFailedProbes` | backend/app/core/trust.py:217-248 | the low band means probes were answered and their component is below neutral |
| `Trust.VolumeAloneIsCapped` | backend/app/core/trust.py:120-138 | without probes no amount of reviewing scores more than the volume weight allows |
| `Trust.VolumeIsProportional` | backend/app/core/trust.py:120-138 | volume earns nothing up to its neutral count, all from its full count on, and in proportion between |
| `Trust.VolumeAloneIsNormal` | backend/app/core/trust.py:217-248 | at the default weights that is 65, the normal band |
| `Trust.OneMoreCorrect` | backend/app/core/trust.py:91-117 | one more correct probe does not lower the component exactly when the reader is at full confidence or at most half an answer below chance |
| `Trust.CorrectProbeHelps` | backend/app/core/trust.py:91-117 | and then it does not lower the score |
| `Trust.CorrectProbeCanHurt` | backend/app/core/trust.py:91-117 | after one failure a success takes the score from 44 to 38 |
| `Trust.NoSkewWithinTolerance` | backend/app/core/trust.py:179-190 | there is no skew penalty exactly within the tolerance |
| `Trust.ExtremesAreFull` | backend/app/core/trust.py:179-190 | never forwarding is penalised in full unless nobody forwards, always forwarding unless everybody does; otherwise not at all |
| `Trust.ForwardingIsPenalisedHarder` | backend/app/core/trust.py:160-190 | in a population that mostly drops, forwarding a share is penalised at least as hard as dropping it exactly when the share is at least half or there is nothing to compare |
| `Trust.ReachFollowsScore` | backend/app/core/trust.py:242-272 | a better score never reaches fewer, and every forward reaches someone |
| `Trust.ReachIsNearest` | backend/app/core/trust.py:262-272 | reach is the scaled default to the nearest whole reader, a half counting up, and at least one |
| `Trust.DefaultReach` | backend/app/core/trust.py:242-272 | at the defaults two readers below 35, four from 70, three between |
| `Trust.NormalReachIsDefault` | backend/app/core/trust.py:251-272 | the normal band reaches exactly the default |
| `RateLimit.Budget.Consume` | backend/app/core/rate_limit.py:49-63 | the script trims, refuses with the wait, or records |
| `RateLimit.Budget.Enforce` | backend/app/core/rate_limit.py:146-155 | a limit of zero or less is off; a refusal tells whole seconds |
| `RateLimit.TrimmedIsRecent` | backend/app/core/rate_limit.py:55-61 | trimming leaves exactly the admissions of the last window, whether or not the key expired |
| `RateLimit.NeverMoreThanLimit` | backend/app/core/rate_limit.py:49-63 | over any calls no half-open interval of one window holds more than `limit` admissions |
| `RateLimit.LogStaysSmall` | backend/app/core/rate_limit.py:49-63 | the log never holds more than `limit` hits |
| `RateLimit.RefusalWaits` | backend/app/core/rate_limit.py:56-62 | a refusal always asks for a positive wait, so 0 means admitted |
| `RateLimit.WaitIsExact` | backend/app/core/rate_limit.py:56-59 | after any calls since the key was empty, the wait of a refusal is exact: every call before it is over is refused, however many, the first from then on is admitted, and so is a caller that waits the whole seconds told |
| `RateLimit.AdvertisedCoversWait` | backend/app/core/rate_limit.py:122 | the seconds told cover the wait by less than one second |
| `Usernames.StrIsInjective` | backend/alembic/versions/0007_username_policy.py:82-88 | different suffix numbers are written differently |
| `Usernames.StrIsDecimal` | backend/alembic/versions/0007_username_policy.py:82-88 | a suffix reads back, as a decimal numeral, as its number |
| `Usernames.CandidateKeepsWhatFits` | backend/alembic/versions/0007_username_policy.py:82-88 | a candidate is its suffix behind as much of the base as fits in thirty characters |
| `Usernames.OneIsFree` | backend/alembic/versions/0007_username_policy.py:79-88 | of one more suffix of a length than there are taken names, one is free |
| `Usernames.FreeSuffix` | backend/alembic/versions/0007_username_policy.py:79-88 | whatever is taken, some suffix is free, so the search ends |
| `Usernames.ChosenIsValid` | backend/alembic/versions/0007_username_policy.py:79-88 | the chosen name is valid and free while fewer names are taken than there are thirty-digit suffixes |
| `Usernames.Unique` | backend/alembic/versions/0007_username_policy.py:79-88 | the base if free, else the free candidate of least number |
| `Usernames.Base` | backend/alembic/versions/0007_username_policy.py:70-76 | the rewritten form is always a valid name |
| `Usernames.BaseKeepsWhatFits` | backend/alembic/versions/0007_username_policy.py:70-76 | the rewritten form is as much of the allowed characters as fits, the stand-in only when fewer than three are left, and a valid name as it was |
| `Usernames.StrippedByCharacter` | backend/alembic/versions/0007_username_policy.py:75 | each character is kept or dropped by itself, in order |
| `Usernames.Upgrade` | backend/alembic/versions/0007_username_policy.py:91-115 | every update keeps names unique; at the end all are valid and different, valid names are untouched, no rewritten row holds the reserved name, and each took the first name free in its turn |
| `Usernames.UpgradeIsDetermined` | backend/alembic/versions/0007_username_policy.py:91-115 | that contract leaves one table only: the result is a function of the old names, the order of rows and the reserved name |

## Left out

- HTTP routing, schemas, authentication, logging, media, e-mail, payments and exports: no distribution state.
- The crash windows between Postgres and Redis in one request: an operation's identity starts when it is on the stream.
- XAUTOCLAIM's idle time: any pending entry may be claimed, also one whose worker is alive.
- The order of due retries and of samples: any order and any distinct draw.
- NoOpLost.NoOperationIsLost: the backfill of a rebuild is not a step of the fine machine; it is proved on its own in `backfill.dfy`.
- Placements.AuthorsNeverReceiveTheirOwn: for posts whose row still names the author, or whose operations all do; a forward made after the author deleted the account carries none.
- Memberships.EveryMembershipIsAccounted: a rebuild running beside other requests is not a move of that machine.
- Economy.ReviewPost: the trust lookup behind a forward's fan-out is a parameter, as is the verdict a test post expects.
- Ledger.RebuildForgivesSpending: concurrent spending during a rebuild is not modelled.
- Float rounding: prices and scores are computed over reals, with the source's rounding to integers written out.
- RateLimit.NeverMoreThanLimit: the server's clock does not run backwards; the limit and window of a budget do not change between calls.
- Usernames.Upgrade: for tables of fewer rows than there are suffixes of thirty digits; beyond that the search still ends, with a name that may be too long.
- Usernames.Base: the Unicode fold to ASCII is any function; the removal of other characters, the truncation and the fallback are modelled.
- Operations, snapshots and ranges written by earlier deployments without the newer fields.
- The SQL aggregates that gather the trust inputs, and the cache of the score: only hasty <= paced, forwards <= reviews and correct <= answered are used.
- Requests.CreatePost: the decoding and storing of uploads between the checks and the price, whose failures charge nothing, are not modelled; nor are the rows of blocks and media.
- AudienceIndex.SetContentLanguages: one request on its own, as are the other requests of that module; several of one reader at once are `mirror_race.dfy` and `mirror_pairs.dfy`, with exact conditions for two of different kinds.
- MirrorRace.MirrorHoldsAtRest: for requests that do not overlap and do not die between commit and write; what a request that dies leaves is what `MirrorRace.SetRepairsExactly` repairs or does not.
- PriceWindow.QuoteIsCharged: for calls that do not overlap; `PriceRace.QuoteStands` is the result for those that do.
- PriceWindow.RangeIsExact: for calls that do not overlap; `RangeRace.RangeStaysExact` is the result for those that do, for the prices folded in so far.
- Probes.OneTestAtATime, and the other runs of `probes.dfy`: one request of a reader at a time; overlapping ones are `probe_race.dfy`.
- Ledger.BooksBalance: each request is one step; what overlapping reviews of one reader do to their counters is `counter_race.dfy`.
- Probes.TestsAreSpaced: not stated for overlapping requests, which restart the count once for several tests.
- ProbeRace.OverlapGivesAsManyTests: whether each test can be made is a free choice; the room in the queue is not modelled there.
- RefreshRace.SnapshotsAreApart: a flush of the price keys is not modelled.
- The fine machine lets a test post be made at any moment, not only after a review of its reader, so its bounds hold for more runs than the code has; the witnesses use none.
- Probes.ProbeKeys.RecordMint: the list of remembered wordings has an expiry of its own, which is not modelled.
- Erasure.ChasedExactly: between requests; while agents are at work on a post `Erasure.Over` is a sufficient condition.
