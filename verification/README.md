# oauthrelay: verified model

This project models the parts of oauthrelay whose correctness is hardest to see from the code, and
proves their properties with Dafny 4.11. `dafny verify dfyconfig.toml` checks all of it.

**Rotating refresh tokens** (`Rotation*.dfy`). The protocol is a step system: every store call,
clock reading, seal and upstream answer is one step of one caller, so any number of callers on any
number of instances interleave between any two of them. Callers crash, seals fail, store calls fail
with or without having taken effect, records outlive their lifetime by any amount, and time passes
between any two steps. Each protocol method of the source is a group of program points
(`Pc`) with the same branches. The store's four key namespaces are four maps, which
`Bindings.PlacesHaveOwnKeys` justifies. `RotationInvariant` proves what every step keeps, in
rely/guarantee form: a caller's effect is legal, legal effects keep the global facts, and nobody's
legal effect disturbs what another caller relies on. `RotationSafety`, `RotationRevocation`,
`RotationErasure` and `RotationLease` state what follows for every run. `RotationWalk` has the erase
walk as the loop it is, and the steps as its refinement. What calls achieve is stated twice: of a
caller that nobody disturbs, with the whole new store (`RotationProgress`, `RotationCommit`,
`RotationHandBack`), and of any interleaving, with how the call ends (`RotationOutcomes`,
`RotationVerdicts`); both count the caller's own steps.

**Stores** (`IdealStore`, `MemoryStore`, `DynamoDbStore`, `DynamoDbWriters`, `StoreClients`). One ideal
expiring store, whose state is only the list of writes, specifies both backends. `StoreClients` says
of sequences of calls to either what the last of them is answered.

**Algorithms** (`Glob`, `IdTokenPolicy`, `KeyCache`, `ReplayMarkers`, `ReplayPresentations`,
`BasicCredentials`, `Base64`, `Bytes`, `Bindings`, `TokenMembers`, `Layout`), each against a
specification that does not mention how it is computed.

## Results that deserve attention

- **Revocation does not always erase the token.** The configuration guide promises that revoking a
  family deletes the stored upstream token
  (docs/src/content/docs/configuration.md:450), and the source calls every rotated record a
  tombstone that remains until the family expires (crates/oauthrelay-core/src/rotation.rs:30-32).
  But a refresh that finds its family revoked after its commit deletes its successor's record
  without looking at it (crates/oauthrelay-core/src/rotation.rs:595-602). If a grace replay has
  disclosed that successor in the meantime and it has been rotated itself, this deletes a tombstone
  in the middle of the chain; the revocation's walk ends at the gap and the newest record keeps its
  token until the family expires. `RotationCut.ErasureCanFail` is such a run, without any crash or
  failure. `RotationErasure.DiscardCutsExactlyWhen` says exactly which steps cut a chain in this
  sense, and `RotationErasure.GapExactlyWhenCut` that a cut is what a missing tombstone before a
  stored token comes from. `RotationErasure.GuardedRevocationErasesTokens` proves erasure for all
  runs without such a discard, and `RotationErasure.LookingRevocationErasesTokens` that it is enough
  to load the successor first, at any time once the marker is there, and to find no tombstone.
  `RotationErasure.LeftoversStay` says that what is left behind stays, and
  `RotationWalk.UndisturbedRevocation` exactly when a revocation on its own erases the token. The
  marker blocks the family in any case: `RotationRevocation.RevokedFamilyYieldsNothing` has no such
  condition.
- **A code's replay marker can end before the code does.** The marker lives for `CODE_TTL` from the
  first redemption, while the code is accepted for `CODE_TTL` from its issue as another clock saw
  it, judged some time before the store is asked. `ReplayMarkers.RedeemableAgainExactlyWhen` has the
  exact condition for both stores: a code is redeemable twice exactly if its first redemption comes
  too early by that delay. `DelayedCodeIsRedeemedTwice` shows it for a delay of eleven seconds,
  `EarlyCodeIsRedeemedTwice` with the tolerated half minute of clock skew, and
  `PromptCodeIsRedeemedTwice`, for the in-memory store only, without either.
- **A single-use assertion is single-use as long as its store call comes within its lifetime.**
  `ReplayMarkers.SecondUse` is the exact condition and `DelayedUseIsAcceptedTwice` an input.
- **The key-set cooldown is kept between fetches, not between requests.** The cooldown starts before
  the outbound policy is asked (crates/oauthrelay-core/src/router.rs:2154-2168,
  crates/oauthrelay-core/src/outbound.rs:158), so a policy that takes time shortens the distance of
  the requests by as much. `KeyCache.SentPace` is the bound, `KeyCache.ThreeRequests` a run that
  meets it for every delay.
- **A DynamoDB write that took effect can be reported as refused, although every value is unique.**
  The source says its resolution of ambiguous writes is exact for unique values
  (crates/oauthrelay-store-dynamodb/src/lib.rs:113-120). It is, as long as nothing else is served
  between a request and its repetition (`DynamoDbStore.CurrentReplicaDiffersExactlyWhen`), and a
  caller told that it wrote always did (`DynamoDbWriters.ToldTrueMeansWrote`). But a creation whose
  response is lost, and whose item another caller swaps before the request is repeated, is told
  false: `DynamoDbWriters.WriterIsToldFalse`. `DynamoDbWriters.ToldFalseThoughWroteExactlyWhen` says
  exactly when that happens.

## Model

| member | source | states |
|---|---|---|
| `RotationSafety.ReachedInv` | crates/oauthrelay-core/src/rotation.rs:407-963 | The protocol's invariant holds in every state of every run, for any number of callers and any interleaving, with takeovers, crashes, failing seals and store calls of unknown outcome |
| `RotationInvariant.TurnIsLegal` | crates/oauthrelay-core/src/rotation.rs:407-963 | Whatever step a caller takes, from what it relies on, its one effect on the store is a legal one |
| `RotationInvariant.LegalKeepsGlobal` | crates/oauthrelay-core/src/rotation.rs:645-742 | A legal effect keeps every fact about records, chain, tips, head pointers, markers, responses and disclosure |
| `RotationInvariant.LegalIsHarmless` | crates/oauthrelay-core/src/rotation.rs:407-963 | No caller's effect takes away what another caller, at any point of its own refresh, relies on |
| `RotationInvariant.ClaimBytesAreOwn` | crates/oauthrelay-core/src/rotation.rs:490-510 | Claims with equal bytes are of one caller, so a holder's swap from its own claim never matches what another claimant wrote |
| `RotationSafety.OneResponsePerHandle` | crates/oauthrelay-core/src/rotation.rs:407-479 | All token responses ever returned for a handle, by the winner or by grace replays, are the same, and name the successor the handle was rotated to |
| `RotationSafety.RotatedForGood` | crates/oauthrelay-core/src/rotation.rs:713-741 | A record that reads `Rotated` keeps its bytes until it is deleted |
| `RotationSafety.RotatedAtMostOnce` | crates/oauthrelay-core/src/rotation.rs:713-741 | A handle is rotated at most once: its rotation never changes, and its record never comes back once deleted |
| `RotationSafety.UncommittedIsUndisclosed` | crates/oauthrelay-core/src/rotation.rs:645-742 | A successor whose rotation was never committed is known to no client |
| `RotationSafety.UniquePredecessor` | crates/oauthrelay-core/src/rotation.rs:704-720 | No two handles are rotated to the same successor |
| `RotationSafety.OneTokenOnTheChain` | crates/oauthrelay-core/src/rotation.rs:19-21 | At most one record on a family's chain holds an upstream token |
| `RotationSafety.HeadMovesForward` | crates/oauthrelay-core/src/rotation.rs:720-735 | The head pointer always names a member of its family's chain and only moves up that chain |
| `RotationSafety.TokenIsLastReturned` | crates/oauthrelay-core/src/rotation.rs:568-570 | A chain record that holds a token holds the one the upstream last returned along the chain, or the issued one if it returned none |
| `RotationRevocation.ChainStaysVisible` | crates/oauthrelay-core/src/rotation.rs:653-659 | Until its family expires or is revoked, the record of every chain member is visible in the store |
| `RotationRevocation.MarkerStaysVisible` | crates/oauthrelay-core/src/rotation.rs:893-900 | A revocation marker is visible until every member of its family has expired |
| `RotationRevocation.SuccessorInheritsExpiry` | crates/oauthrelay-core/src/rotation.rs:670-681 | All descendants inherit family and family expiry |
| `RotationRevocation.ReplyVisibleInGrace` | crates/oauthrelay-core/src/rotation.rs:659-667 | The recorded response of a rotation is visible, unchanged, for the grace period and the margin after it, while its family is neither revoked nor expired |
| `RotationRevocation.ReuseRevokes` | crates/oauthrelay-core/src/rotation.rs:451-460 | Without crash, store or sealer failure, a call with a rotated handle after its grace period ends only with the family revoked or expired, whatever else happens in between |
| `RotationRevocation.RevokedFamilyYieldsNothing` | crates/oauthrelay-core/src/rotation.rs:419-424 | A call that began after the marker was written asks no upstream, holds no claim and gets no tokens until the family expires |
| `RotationRevocation.InFlightRefreshWithholds` | crates/oauthrelay-core/src/rotation.rs:595-612 | A refresh whose check after the commit finds the family marked returns no tokens and discloses no successor |
| `RotationErasure.RevocationErasesTokens` | crates/oauthrelay-core/src/rotation.rs:887-963 | Without crash, store or sealer failure, once a marked family's calls have ended no record of it holds an upstream token, if its chain was not cut and reaches no further than the hop limit from where the head pointer was before the marker |
| `RotationErasure.GuardedRevocationErasesTokens` | crates/oauthrelay-core/src/rotation.rs:887-963 | The same for all runs in which no withholding caller deletes a successor that was rotated before the marker |
| `RotationErasure.LookingRevocationErasesTokens` | crates/oauthrelay-core/src/rotation.rs:887-963 | The same for all runs in which every withholding caller has loaded its successor at some time between the marker and the deletion and found no tombstone |
| `RotationErasure.DiscardCutsExactlyWhen` | crates/oauthrelay-core/src/rotation.rs:595-602 | Without crash, store or sealer failure a step cuts a chain exactly if it is a withholding caller's discard of a successor rotated before the marker, while a token that nobody in flight withdraws is beyond it |
| `RotationErasure.GapExactlyWhenCut` | crates/oauthrelay-core/src/rotation.rs:932-962 | While a revoked family stores such a token, a tombstone of its chain is missing exactly if the chain was cut |
| `RotationErasure.DiscardLeavesGapExactlyWhen` | crates/oauthrelay-core/src/rotation.rs:598-602 | Whoever is still in flight, the discard leaves a gap before a stored token exactly if it finds a tombstone |
| `RotationErasure.LeftoversStay` | crates/oauthrelay-core/src/rotation.rs:419-424 | Once a marked family is quiet, no later call, and no failure, changes any record of it before it expires: a token left behind stays |
| `RotationCut.ErasureCanFail` | crates/oauthrelay-core/src/rotation.rs:595-602 | A concrete run without crash or failure after which a revoked, quiet family of three records still stores its upstream token |
| `RotationWalk.ChainStore.EraseTokens` | crates/oauthrelay-core/src/rotation.rs:936-962 | The walk's loop deletes exactly the first record with a token on the chain from its start, within the hop limit, and nothing else |
| `RotationWalk.WalkFindsTip` | crates/oauthrelay-core/src/rotation.rs:932-962 | From any member of a connected chain the walk finds the one token, at the tip, if that is within the hop limit |
| `RotationWalk.UndisturbedWalk` | crates/oauthrelay-core/src/rotation.rs:936-962 | The protocol's single steps refine the loop: undisturbed they lead to the same records |
| `RotationWalk.WalkEndsExactlyWhen` | crates/oauthrelay-core/src/rotation.rs:932-962 | From a chain member the walk finds the tip's token exactly if no record from there on is missing and the tip is within the hop limit; otherwise it finds nothing |
| `RotationWalk.UndisturbedRevocation` | crates/oauthrelay-core/src/rotation.rs:901-915 | An undisturbed revocation erases the token exactly if its walk from the head pointer or from the handle it holds is such a one |
| `RotationLease.OneUpstreamRefreshPerFamily` | crates/oauthrelay-core/src/rotation.rs:92-99 | In every run on time, a family never has two upstream refreshes in flight |
| `RotationLease.NoTakeoverBeforeFinalSwap` | crates/oauthrelay-core/src/rotation.rs:431-449 | In every run on time, a holder's claim stands until its final swap unless a revocation deleted the record |
| `RotationProgress.HandleIsClaimed` | crates/oauthrelay-core/src/rotation.rs:425-449 | Progress: a handle that is active, or claimed by someone whose lease has passed, is claimed by an undisturbed call that presents it: after six steps the call is at the upstream with the record's token, and the record holds its claim |
| `RotationProgress.ClaimIsWaitedFor` | crates/oauthrelay-core/src/rotation.rs:431-478 | Until that lease has passed, an undisturbed call changes nothing: after four steps it loads the record again or is unavailable |
| `RotationProgress.CanGoOn` | crates/oauthrelay-core/src/rotation.rs:407-963 | No caller is ever stuck: from every state it has undisturbed runs of any number of steps, whatever the upstream answers |
| `RotationProgress.HandleIsIssued` | crates/oauthrelay-core/src/rotation.rs:826-856 | An undisturbed issuing caller hands out a new handle after five steps; its record is active with the token, its family new and alive for the whole lifetime, and the head pointer on it |
| `RotationCommit.GrantIsCommitted` | crates/oauthrelay-core/src/rotation.rs:568-742 | Progress: a refresh that the upstream grants while the claim stands is, undisturbed, committed and told after ten steps: the answer with a new handle, whose record is active with the token the upstream returned (the old one if none); the presented handle rotated to it, the response recorded, the head pointer moved along, and nothing else changed |
| `RotationHandBack.ClaimIsHandedBack` | crates/oauthrelay-core/src/rotation.rs:531-584 | After any upstream answer that is neither a grant nor `invalid_grant`, the undisturbed holder leaves the record active with the token it had, changes nothing else, and says which it was |
| `RotationHandBack.FailedCommitIsUndone` | crates/oauthrelay-core/src/rotation.rs:697-704 | A seal or store call that fails before the final swap, with or without effect, leaves neither response nor successor behind, and the handle's record active with the token it had |
| `RotationOutcomes.GrantEnds` | crates/oauthrelay-core/src/rotation.rs:585-642 | Whatever others do, and if they fail or crash: a granted refresh none of whose own steps fails ends within eleven of them in one of three ways: the client is told the upstream's answer and the handle is rotated to the new one with that token; or it is denied, the family being revoked; or unavailable, the family having expired or the claim having been lost; and then nothing is left of the grant |
| `RotationVerdicts.InvalidGrantRevokes` | crates/oauthrelay-core/src/rotation.rs:543-555 | In the same sense a caller answered `invalid_grant` passes that on within a known number of steps, and by then the family is marked revoked or has expired |
| `RotationVerdicts.DeadHandleIsDenied` | crates/oauthrelay-core/src/rotation.rs:414-460 | In the same sense a presentation of a handle never issued, expired, of a revoked family, or rotated longer ago than the grace period, ends denied within a known number of steps |
| `RotationVerdicts.ReplayedWithinGrace` | crates/oauthrelay-core/src/rotation.rs:451-473 | In the same sense a rotated handle presented within its grace period is answered after four steps with the very response the rotation recorded, unless the family is revoked or expires |
| `IdealStore.VisibleExactlyUntilExpiry` | crates/oauthrelay-core/src/store.rs:93-119 | In the ideal store, after a creation or swap that was done and any operations since that leave the record alone: at exactly the times before its expiry it is read with its value and the time it has left, creation is refused, and a swap is done exactly if it expects that value; from then on nothing is read and creation is done |
| `IdealStore.NothingAfterDeletion` | crates/oauthrelay-core/src/store.rs:93-119 | After a deletion, as in a store never written to, nothing is read, no swap is done and creation is done, until the key is created |
| `StoreClients.WriteThen` | crates/oauthrelay-core/src/store.rs:195-260 | The same of the in-process store's calls, with clock readings in any order, requests of others in between and any sweeps |
| `StoreClients.DeleteThen` | crates/oauthrelay-core/src/store.rs:195-260 | And after its deletion |
| `StoreClients.WriteToTableThen` | crates/oauthrelay-store-dynamodb/src/lib.rs:145-219 | The same of the DynamoDB store's calls, in seconds and up to `Expiry`, for values that are unique as the store contract asks |
| `StoreClients.DeleteFromTableThen` | crates/oauthrelay-store-dynamodb/src/lib.rs:145-219 | And after its deletion |
| `MemoryStore.MemoryStore.PutIfAbsent` | crates/oauthrelay-core/src/store.rs:197-221 | Refines the ideal store for clock readings in any order: it answers and writes as that does, or, only if the reading is behind that of a sweep which removed the record, as if the record were absent |
| `MemoryStore.MemoryStore.Get` | crates/oauthrelay-core/src/store.rs:223-234 | Refines the ideal store in the same sense |
| `MemoryStore.MemoryStore.CompareAndSwap` | crates/oauthrelay-core/src/store.rs:236-254 | Refines the ideal store in the same sense |
| `MemoryStore.MemoryStore.Delete` | crates/oauthrelay-core/src/store.rs:256-260 | As the ideal store |
| `MemoryStore.MemoryStore.Lock` | crates/oauthrelay-core/src/store.rs:183-193 | Locking, with or without a sweep, leaves the ideal store as it is |
| `MemoryStore.SweepIsUnobservable` | crates/oauthrelay-core/src/store.rs:184-191 | Removing expired records changes nothing for any reading from the sweep's on |
| `IdealStore.CurrentCallerSeesNoCleanUp` | crates/oauthrelay-core/src/store.rs:43-56 | A caller whose clock is not behind any clean-up is answered exactly as by the ideal store |
| `DynamoDbStore.ExpiryRounding` | crates/oauthrelay-store-dynamodb/src/lib.rs:133-136 | A record is visible for at least its lifetime in real time and for less than two seconds more, with all clock readings truncated to seconds |
| `DynamoDbStore.DynamoDbStore.PutItem` | crates/oauthrelay-store-dynamodb/src/lib.rs:68-72 | A conditional write sent any number of times after lost responses, with nothing else served in between, writes exactly if its condition held at first, and is reported as applied exactly then or if a live item already holds the same bytes |
| `DynamoDbStore.DynamoDbStore.PutIfAbsent` | crates/oauthrelay-store-dynamodb/src/lib.rs:147-169 | Any number of replicas with clocks in any order, each request resent with nothing else served in between: refines the ideal store, except that a refused write counts as done if the live record holds its own bytes, and that a record the service reclaimed by a clock ahead of the replica's counts as absent |
| `DynamoDbStore.DynamoDbStore.Get` | crates/oauthrelay-store-dynamodb/src/lib.rs:171-183 | Refines the ideal store for any replica, up to what the service reclaimed by a clock ahead of it |
| `DynamoDbStore.DynamoDbStore.CompareAndSwap` | crates/oauthrelay-store-dynamodb/src/lib.rs:185-211 | As for creation |
| `DynamoDbStore.DynamoDbStore.Delete` | crates/oauthrelay-store-dynamodb/src/lib.rs:213-219 | As the ideal store |
| `DynamoDbStore.DynamoDbStore.Reclaim` | crates/oauthrelay-store-dynamodb/src/lib.rs:15-17 | The service's own deletion of expired items leaves the ideal store as it is |
| `DynamoDbStore.CurrentReplicaDiffersExactlyWhen` | crates/oauthrelay-store-dynamodb/src/lib.rs:113-131 | A replica whose clock is not behind the service's, and whose resends have nothing in between, is answered as by the ideal store exactly unless a refused write finds its own bytes in the live record |
| `DynamoDbWriters.ToldTrueMeansWrote` | crates/oauthrelay-store-dynamodb/src/lib.rs:113-131 | With values unique to their writers, a caller told that its conditional write took effect did write, whatever responses were lost and requests repeated or delayed |
| `DynamoDbWriters.OneRivalPerEra` | crates/oauthrelay-store-dynamodb/src/lib.rs:113-131 | In every run, removals, expiry and clocks apart included: between two moments at which the item is removed or replaced as expired, at most one of all callers creating it, or swapping from the same value, takes effect |
| `DynamoDbWriters.OneRivalIsToldTrue` | crates/oauthrelay-core/src/store.rs:49-51 | If two such callers are both told that they wrote, the item was removed or replaced as expired in the run |
| `DynamoDbWriters.ToldFalseThoughWroteExactlyWhen` | crates/oauthrelay-store-dynamodb/src/lib.rs:113-131 | A caller is told that its write was not done although it was exactly if the write of an earlier, unanswered request is superseded when the answered one is served and the condition does not hold again |
| `DynamoDbWriters.WriterIsToldFalse` | crates/oauthrelay-store-dynamodb/src/lib.rs:113-131 | Such a run with unique values, equal clocks and nothing removed or expired |
| `Glob.StringLike` | crates/oauthrelay-core/src/id_token_policy.rs:235-256 | The matcher terminates and accepts exactly if the value can be cut into one piece per pattern character: any piece for a `*`, one character for a `?`, and for any other character that one. Going back to the latest star only loses no match |
| `Glob.LikeMeansSplits` | crates/oauthrelay-core/src/id_token_policy.rs:576-588 | The recursive language that policies use is the one of these pieces |
| `Glob.LiteralPattern` | crates/oauthrelay-core/src/id_token_policy.rs:42-46 | A pattern without wildcards matches only itself |
| `IdTokenPolicy.Evaluate` | crates/oauthrelay-core/src/id_token_policy.rs:180-223 | A matcher accepts a claim exactly as its operator says, arrays and types included, and reports why not |
| `IdTokenPolicy.EvaluateSet` | crates/oauthrelay-core/src/id_token_policy.rs:134-154 | A set accepts exactly if every matcher accepts its claim |
| `IdTokenPolicy.EvaluatePolicy` | crates/oauthrelay-core/src/id_token_policy.rs:92-111 | A policy admits exactly if the required set, if any, and some branch, if branches are given, accept |
| `IdTokenPolicy.ValidPolicyFailsClosed` | crates/oauthrelay-core/src/id_token_policy.rs:74-90 | A validated policy admits no token without a named claim that satisfies its matcher |
| `KeyCache.KeyCache.Keys` | crates/oauthrelay-core/src/router.rs:2122-2190 | Every set returned was fetched less than `JWKS_TTL` before it was judged; of three successive fetches the first and third begin at least the cooldown apart; a denial leaves the throttle as it was |
| `KeyCache.FetchKeepsPace` | crates/oauthrelay-core/src/router.rs:2155-2188 | A fetch that is sent keeps that pace, although a successful unforced one lifts the throttle |
| `KeyCache.FetchRate` | crates/oauthrelay-core/src/router.rs:2121 | Over any stretch of a run at most two fetches begin per cooldown |
| `KeyCache.SentPace` | crates/oauthrelay-core/src/router.rs:2154-2168 | Of three successive requests sent to the key-set URL the first and third are at least the cooldown apart, less the time the outbound policy took to allow the first |
| `KeyCache.ThreeRequests` | crates/oauthrelay-core/src/router.rs:2154-2168 | For every such delay a run that keeps exactly that distance: the full cooldown between requests is guaranteed for a delay of zero only |
| `ReplayMarkers.MarkerLasts` | crates/oauthrelay-core/src/router.rs:909-931 | Over either store, whatever happens in between, the next marker is accepted exactly from when the first is gone |
| `ReplayMarkers.SecondRedemption` | crates/oauthrelay-core/src/router.rs:909-931 | Of two redemptions of one code the second passes exactly if the first one's marker is gone: `CODE_TTL` later in memory, up to one second more on DynamoDB |
| `ReplayMarkers.RedeemableAgainExactlyWhen` | crates/oauthrelay-core/src/router.rs:799-931 | A redeemed code can be redeemed again exactly if it was first redeemed too early: before its second of issue was over (in memory) or before that second (on DynamoDB), later by as much as the store may be asked after the code's age was judged |
| `ReplayMarkers.PromptCodeIsRedeemedTwice` | crates/oauthrelay-core/src/router.rs:2561-2564 | In memory, without delay or clock skew, a code redeemed in its second of issue is redeemed twice |
| `ReplayMarkers.EarlyCodeIsRedeemedTwice` | crates/oauthrelay-core/src/router.rs:2561-2564 | Over either store, so is a code issued by a clock half a minute ahead |
| `ReplayMarkers.DelayedCodeIsRedeemedTwice` | crates/oauthrelay-core/src/router.rs:799-931 | Over either store, so is a code redeemed ten seconds after its issue, by a redemption judged in its last second and served eleven seconds later |
| `ReplayPresentations.RedeemCode` | crates/oauthrelay-core/src/router.rs:799-946 | A code is accepted exactly if it was issued at most five minutes ago, by a clock at most half a minute ahead, and the in-memory store answers that it took the marker; a failing store refuses, whether or not the marker was written |
| `ReplayPresentations.RedeemCodeAtTable` | crates/oauthrelay-core/src/router.rs:799-946 | The same over DynamoDB, for a marker value no earlier marker of the code carries |
| `ReplayPresentations.RedeemTwice` | crates/oauthrelay-core/src/router.rs:799-946 | Over one store: after an accepted redemption the next is accepted exactly if the code is fresh when judged, the store answers, and the marker is gone |
| `ReplayPresentations.RedeemTwiceAtTable` | crates/oauthrelay-core/src/router.rs:799-946 | The same over DynamoDB |
| `ReplayMarkers.MarkerOutlastsAssertion` | crates/oauthrelay-core/src/router.rs:1776-1780 | The marker of an assertion outlasts every second at which the assertion is still accepted, over either store |
| `ReplayMarkers.AssertionUsedOnce` | crates/oauthrelay-core/src/router.rs:1776-1791 | An accepted assertion is not accepted again by any presentation whose store call falls into its lifetime, whatever happens in between |
| `ReplayMarkers.SecondUse` | crates/oauthrelay-core/src/router.rs:1776-1791 | Whatever happens in between, a second use passes exactly if the first one's marker is gone, hence only in a later second than the one its lifetime was judged in; marker lifetimes are computed before the store is asked |
| `ReplayMarkers.DelayedUseIsAcceptedTwice` | crates/oauthrelay-core/src/router.rs:1776-1791 | Over either store, an assertion whose second use is judged in its last second and reaches the store two seconds later is accepted twice |
| `ReplayPresentations.UseAssertion` | crates/oauthrelay-core/src/router.rs:1742-1791 | A single-use assertion is accepted exactly if it is issued and not expired, give or take a minute, has an id and a lifetime of at most five minutes, and the store answers that it took the marker |
| `ReplayPresentations.UseTwice` | crates/oauthrelay-core/src/router.rs:1742-1791 | Over one store: after an accepted use, a further one within its lifetime is accepted exactly if the store answers and the marker is gone |
| `BasicCredentials.FormUrldecode` | crates/oauthrelay-core/src/router.rs:1546-1563 | The one-pass decoder yields exactly what form-urlencoding stands for, and nothing for malformed escapes or text that is not UTF-8 |
| `BasicCredentials.DecodeUrlEncoded` | crates/oauthrelay-core/src/router.rs:1365-1367 | Decoding inverts form-urlencoding, whose output holds no colon |
| `BasicCredentials.DecodedExactlyWhen` | crates/oauthrelay-core/src/router.rs:1546-1563 | An input stands for a text exactly if it can be cut into one piece per byte: the byte itself unless that is `+` or `%`, `+` for a space, or `%` and two hexadecimal digits of either case |
| `Bytes.Utf8ExactlyWhen` | crates/oauthrelay-core/src/router.rs:1562-1562 | Decoded text is accepted exactly if it is a sequence of Unicode scalar values in UTF-8 |
| `Base64.DecodeEncode` | crates/oauthrelay-core/src/router.rs:1540-1540 | Strict base64 decoding inverts encoding |
| `Base64.EncodeDecode` | crates/oauthrelay-core/src/router.rs:1540-1540 | Strict base64 accepts one spelling of every byte string |
| `Base64.EncodesGroups` | crates/oauthrelay-core/src/router.rs:1368-1370 | The encoding is that of RFC 4648, section 4: of every three bytes the four times six bits, as letters of the standard alphabet, with padding |
| `BasicCredentials.CredentialRoundTrip` | crates/oauthrelay-core/src/router.rs:1363-1371 | For all ids and secrets, the parsed header of the printed credentials gives back exactly those |
| `BasicCredentials.ParsesExactlySpellings` | crates/oauthrelay-core/src/router.rs:1525-1544 | The parser reads credentials from exactly the headers of the prescribed form, and from nothing else |
| `Bindings.FingerprintInputInjective` | crates/oauthrelay-core/src/refresh_handle.rs:81-114 | Different generations, issuers, token endpoints or client ids are hashed from different bytes |
| `Bindings.AssociatedDataInjective` | crates/oauthrelay-core/src/rotation.rs:1002-1006 | Equal associated data means equal kind, purpose, relay, store key and fingerprint; rotation values, sealed handles and router envelopes never coincide |
| `Bindings.OpensOnlyAsSealed` | crates/oauthrelay-core/src/refresh_handle.rs:157-172 | A sealed value opens for exactly what it was sealed for |
| `RotationBinding.OtherBindingRefuses` | crates/oauthrelay-core/src/rotation.rs:414-417 | Whatever a handle's record was sealed for under other bindings, a call that presents the handle ends with its first step: refused, no upstream asked, nothing written |
| `Bindings.PlacesHaveOwnKeys` | crates/oauthrelay-core/src/rotation.rs:969-996 | Handle records, responses, head pointers, markers and replay markers never share a store key |
| `TokenMembers.SealTokenResponse` | crates/oauthrelay-core/src/refresh_handle.rs:214-259 | Of a response with status 200 to 299, every non-empty string `refresh_token` member, duplicates included, is replaced by a handle that opens to exactly that token; other members are untouched; a body is passed unchanged exactly if it carries none or the status is another |
| `TokenMembers.SealedTokenIsRead` | crates/oauthrelay-core/src/refresh_handle.rs:214-274 | The first handle handed out is the sealed form of the first token, the one rotation would take |
| `TokenMembers.TokenIsReadExactlyWhen` | crates/oauthrelay-core/src/refresh_handle.rs:262-274 | A token is read exactly from a body that is an object, of status 200 to 299, with a member `refresh_token` that is a non-empty string |
| `TokenMembers.FirstTokenIsRead` | crates/oauthrelay-core/src/refresh_handle.rs:262-274 | And it is the first such member's |
| `TokenMembers.WithRefreshToken` | crates/oauthrelay-core/src/refresh_handle.rs:276-296 | Exactly for bodies that are objects, of status 200 to 299: every `refresh_token` member is replaced, or one is appended if there is none |
| `TokenMembers.OthersStay` | crates/oauthrelay-core/src/refresh_handle.rs:276-296 | All other members keep their order and text |
| `TokenMembers.SetTokenIsRead` | crates/oauthrelay-core/src/refresh_handle.rs:262-296 | The token that was set is the one read back, whatever members there were |
| `TokenMembers.HandleOpensOnlyBound` | crates/oauthrelay-core/src/refresh_handle.rs:154-172 | A handle opens under the binding that sealed it and under no other |
| `Layout.ParsePath` | crates/oauthrelay-core/src/layout.rs:103-148 | Parsing a rendered path gives back endpoint and key exactly for the keys whose segments the strategy maps to them, custom mappers included |
| `Layout.BuiltInKeys` | crates/oauthrelay-core/src/layout.rs:126-133 | For the built-in strategies these are the keys of one segment, and of two |
| `Layout.PathParse` | crates/oauthrelay-core/src/layout.rs:103-148 | A parsed path is the rendered path with nothing but outer slashes added |
| `Layout.TrimsOuterSlashes` | crates/oauthrelay-core/src/layout.rs:104-104 | Exactly the outer slashes are trimmed |
| `Layout.KeyExactlyWhen` | crates/oauthrelay-core/src/model.rs:16-35 | Keys are exactly what slashes join from one or more segments of letters, digits, `-`, `_` and `.` other than `.` and `..` |

## Left out

- RotationErasure.RevocationErasesTokens: one direction, for chains that were not cut, because another walk that is already past a cut may still erase the token; the conditions that are exact are those of the cut (`RotationErasure.DiscardCutsExactlyWhen`), of the gap (`RotationErasure.GapExactlyWhenCut`) and of an undisturbed revocation (`RotationWalk.UndisturbedRevocation`).
- RotationRevocation.ReuseRevokes: about calls that end; `RotationVerdicts.DeadHandleIsDenied` says after how many steps of its own a call has ended. That each step ends is not proved, as nothing bounds a store call.
- RotationVerdicts.DeadHandleIsDenied: for a family that expires while such a call is under way nothing is said, as its revocation marker may be gone before its record is judged; the call is then denied, unavailable or replayed.
- RotationProgress.HandleIsClaimed: one undisturbed call; that some call gets through when many compete for ever is not proved, nor how often the polling loop loads again.
- RotationLease.OneUpstreamRefreshPerFamily: the budgets of seals, upstream and store calls are hypotheses on the run, as the source's timing comment states them; timeouts of store calls do not exist in the source.
- Rotation as methods over a shared object: callers interleave at every store call, so the methods of `Rotator` are steps of a transition system instead; the polling loop is the step `Pause`, and only the erase walk also appears as a loop.
- Store calls of the rotation protocol: a call that errs takes effect at once or never, not after its caller went on; and no call is answered false though it took effect, which DynamoDB allows when another caller changed the record before the request was repeated (`DynamoDbWriters.WriterIsToldFalse`).
- Clock skew between instances in the rotation protocol: all callers read one clock; the stores are modelled without that assumption. A store may still keep records longer than asked.
- Randomness: handles, claim ids and family ids are names not used before; nonces are arbitrary. Hashes are injective and sealing is ideal authenticated encryption.
- Integer width: times in the rotation protocol and in `MemoryStore` are unbounded, the source's saturate or panic near 2^64; `DynamoDbStore` and `ReplayMarkers` saturate as the source does, for clock readings below 2^64 - 1 seconds.
- KeyCache.KeyCache.Keys: the pace holds for fetches as they begin; for requests as they are sent it is `KeyCache.SentPace`. A fetch given up by its caller counts as failed, or as never sent.
- MemoryStore.MemoryStore.PutIfAbsent: a clock reading taken before the lock can be older than that of a sweep, and then a record the sweep removed is treated as absent; the same for `Get` and `CompareAndSwap`. Without such a delay the answers are exact (`IdealStore.CurrentCallerSeesNoCleanUp`).
- DynamoDbStore.DynamoDbStore.PutIfAbsent: clock readings are below 2^64 - 1 seconds, and nothing else is served between a request and its repetition; the same for `CompareAndSwap`. `DynamoDbWriters` has the interleaved repetitions.
- DynamoDbWriters.OneRivalIsToldTrue: at most one; that one of several callers is told that it wrote does not hold of the code (`DynamoDbWriters.WriterIsToldFalse`).
- ReplayPresentations.UseAssertion: signature, issuer, subject, audience and `nbf` checks are not modelled, they only refuse more; the expiry check with its leeway is that of the JWT library, which is not part of this model. Over the in-memory store only; the lemmas on assertions are about both stores.
- ReplayPresentations.RedeemCode: PKCE, redirect and ID-token checks of the redemption only refuse more, and are not modelled. Its acceptance is stated for clocks not behind a sweep, or a reclaim.
- ReplayMarkers.RedeemableAgainExactlyWhen: clock readings are some ten minutes below 2^64 seconds.
- TokenMembers.SealTokenResponse: JSON text is represented by its member list; whether a body that is not an object names a refresh token is an input.
- The stateless migration of `rrt1.` handles: creates a family like any other and is deliberately not single-use.
- The Kubernetes store, its resources and schemas: their meaning depends on the API server.
- HTTP routing, outbound requests, redirect matching, discovery documents, configuration and secret providers, logging: plumbing, or dependent on parsers that cannot be seen.
