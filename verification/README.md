# Verified model of the FantasyXI escrow, rate limiters and query analysis

A Dafny model of the parts of FantasyXI whose correctness spans many operations:

- the Soroban escrow contract (`contracts/src/lib.rs`): one pot of tokens shared by any number of leagues, with deposits,
  settlement in five modes, Merkle claims, four refund routes, freezes, pauses, quorums and timelocks;
- the sliding-window and token-bucket rate limiters, each in memory and as a Redis script;
- GraphQL cost and depth analysis through fragments;
- canonical JSON (`stableStringify`);
- the Redis lock and the primary-read circuit breaker, under every interleaving.

`dafny verify dfyconfig.toml` checks everything.

## How it is organised

| files | content |
|---|---|
| `Wrappers`, `Ordering`, `Sums`, `Host` | optional values, the lexicographic order, sums over maps and sequences; integer widths, XDR (RFC 4506), authorisation, the token ledger |
| `PrizeSplit`, `Commitments` | prize curves and the loops that compute them; settlement hash and Merkle branches |
| `EscrowModel` | every entry point as a function from state to state or error |
| `EscrowMoney`, `EscrowEffects` | what is owed and conservation per operation; what each call does to storage |
| `EscrowRuns` | conservation and solvency over runs |
| `EscrowRefunds`, `EscrowMerkle`, `EscrowPayout`, `EscrowLifecycle`, `EscrowTimelocks`, `EscrowPauses` | the remaining theorems over runs |
| `EscrowOutcomes`, `EscrowPolicy` | what a settlement leaves to whom; who may do what and when, exactly |
| `EscrowWitnesses` | concrete runs on which an expectation fails |
| `EscrowContract` | the contract as a class: every entry point is a method that updates storage in place and is proved to agree with its function; the object carries its history, and the theorems over runs hold of it |
| `SlidingWindow`, `TokenBucket`, `QueryAnalysis`, `CanonicalJson`, `RedisLock`, `ReadGuard` | one module each |

The escrow's storage keys that carry a league id are grouped into one `Partition` per league. A run is a sequence of
events from an empty contract; an event is an invocation, which may fail and then changes nothing, or token movements
elsewhere.

## What is assumed

- Soroban: an invocation is atomic, an error or a trap undoes all of it, and arithmetic that leaves its type traps
  (`overflow-checks` is on in `contracts/Cargo.toml`).
- Authorisation is the set of addresses that signed the invocation; the contract never signs for itself. Asking for the
  same signature twice in one call, as `resolve_dispute_payout` and `resolve_dispute_refund` do, is the same as once.
- Tokens are honest SEP-41 tokens: `transfer` moves exactly the amount or traps, and nobody else spends the escrow's tokens.
  A recipient's balance has no upper limit.
- Ledger time and sequence number never decrease.
- Linked peers answer `is_paused_view` and `federated_pause` as the invocation's environment says.
- SHA-256 has no collision between the finitely many inputs named in each statement; it is otherwise any function. Of
  claims on proofs this concerns only those that are accepted.
- A Merkle root that a settlement accepts commits to a tree with distinct winners and non-negative amounts that sum to the
  pool. Nothing is assumed of calls that fail.
- Sliding window: one limit of at least 1 and one window per key, distinct keys in a request, distinct request ids, a
  monotone clock that both stores share, no eviction. Token bucket: exact reals, one maximum, one monotone clock for the
  script's arguments and the expiry of its key. Lock: unique lock values, one clock for deadlines and the expiry of keys.
  Read guard: a cap of at least 0, a failure threshold of at least 1, positive clock readings.

## Where the code and its description part

- `LeagueStatus::Active` is never assigned, although the test at `contracts/src/lib.rs:2601-2604` expects it.
- `refund` leaves `total_deposited` and `participant_count` as they were: they are exact iff no list refund has returned,
  or dropped, anything (`CountersMatch`, with the run `ListRefundLeavesCounters`).
- A repeated winner overwrites its own prize, and an affiliate cut without an affiliate stays in the escrow: solvency is
  an inequality, and an equality iff the condition of `ExactSolvency` holds (`RepeatedWinnerLosesPrize` breaks it).
- `multisig_unpause` neither waits for the delay of an emergency pause nor clears it: the delay holds iff no quorum
  intervenes (`EmergencyHolds`), and one left behind blocks the end of later pauses (`UnpauseExactly`, `StaleDelay`).
  `claim_prize_merkle` and `claim_refund` work while paused.
- Asked about no bucket at all, the sliding-window script answers `math.huge`, of which Redis then makes some integer; the
  in-memory store replies 0 (`StoresAgreeIff`).
- Redis truncates the token-bucket script's token count, so the wait computed from it may be too long
  (`ScriptWaitIsSafe`); a time to live below 60 seconds makes the script forget (`ShortTtlForgets`).
- `PEXPIRE` with a window that is not positive deletes the key just charged, so the script counts one request less than the
  store: they agree iff the window is positive (`TraceRefines`, `ZeroWindowDiffers`).
- The depth validator and `calculateQueryDepth` skip fragment spreads, the analyzer follows them: they agree under every
  choice of fragments iff there are no spreads (`DepthsAgreeIff`, `SpreadHidesDepth`).
- `initialize_multisig` accepts a signer named twice: some quorum exists iff the threshold is at most the number of
  different signers (`HasQuorumIff`, `DuplicateSignersLockOut`).
- The analyzer does not end on a fragment cycle that it reaches (`AnalysisEndsIff`, `CycleNeverEnds`).
- With a failure threshold below one, the breaker's flag and count disagree (`ZeroThresholdDisagrees`).
- `UpgradeProposal` (`contracts/src/lib.rs:124-128`) and `engage_emergency_pause` (`contracts/src/lib.rs:210-222`) lack
  their closing lines; both are read as complete where the text stops.

## Model

| member | source | states |
|---|---|---|
| EscrowRuns.Solvency | contracts/src/lib.rs:463-2036 | In every state of every run, for every asset, holdings plus executed fee withdrawals cover the deposits of unsettled leagues and the unpaid prizes of settled ones |
| EscrowRuns.ExactSolvency | contracts/src/lib.rs:463-2036 | They are equal, to the unit, iff the escrow began empty and every event so far was tight, a condition on the state and arguments before the event |
| EscrowRuns.RunConserves | contracts/src/lib.rs:463-2036 | Over a run the surplus is the opening balance plus exactly the stray money of its events, which is never negative; the storage invariant holds throughout |
| EscrowRuns.EventConserves | contracts/src/lib.rs:180-2292 | One event of any kind, failing ones included, keeps the invariant and moves holdings and obligations together but for its stray money |
| EscrowRuns.NoStrayIff | contracts/src/lib.rs:974-1011 | An event leaves no stray money iff it is tight: no named payee twice for a positive amount, every positive cut with an affiliate, no positive payment to the escrow itself, no tokens from outside; failed calls are tight |
| EscrowWitnesses.RepeatedWinnerLosesPrize | contracts/src/lib.rs:1001-1011 | A run in which winners [w: 70, w: 30] are accepted for a pool of 100, 30 are owed and 70 stay in the escrow |
| EscrowRuns.SettlementExact | contracts/src/lib.rs:871-972 | `PayoutExceedsDeposits` is unreachable in `settle_internal`; acceptance means fee plus prizes are the deposits, the fee at most 5% of them and the cut between 0 and 20% of the fee |
| EscrowRuns.WinnersNeverTrap | contracts/src/lib.rs:872-972 | Once the fee checks pass, no product, difference or running sum of the prize check leaves i128: every list gets the verdict it would get over unbounded integers |
| EscrowPayout.Payability | contracts/src/lib.rs:1308-1667 | In any reachable state in which executed withdrawals of the asset have taken no more than the surplus, any list of distinct outstanding claims (recorded prizes, cancelled deposits, committed prizes) succeeds one after another in any order, each paid in full |
| EscrowPayout.PayableExactly | contracts/src/lib.rs:1308-1667 | In any reachable state, whatever has been withdrawn, such a list can be collected in its order iff the escrow holds what the claims are due together |
| EscrowPayout.NothingWithdrawn | contracts/src/lib.rs:1973-2036 | With no withdrawal of the asset executed, the first condition holds |
| EscrowPayout.AllClaimsPay | contracts/src/lib.rs:1308-1667 | From any consistent state that holds the sum: each claim pays what was due at the start, whatever was paid before it |
| EscrowPayout.PaidSoFar | contracts/src/lib.rs:1308-1667 | Conversely, what has been collected has left the escrow, to the unit |
| EscrowPayout.ClaimPays | contracts/src/lib.rs:1308-1667 | One outstanding claim succeeds, pays exactly what is due, keeps the books balanced and leaves every other claim untouched; for a committed prize a verifying branch is produced |
| EscrowPayout.DuesWithinOwed | contracts/src/lib.rs:1308-1667 | Distinct outstanding claims are together no more than what the escrow owes |
| EscrowPayout.RecordedPrizeIsNeverFrozen | contracts/src/lib.rs:1670-1731 | An unpaid prize belongs to a settled league, and a settled league is never frozen |
| EscrowOutcomes.PrizeDue | contracts/src/lib.rs:1000-1011 | Over a run, from a settlement by list on, each name is due the amount of the last positive entry naming it (nothing if there is none) until it takes its prize, and nothing after |
| EscrowOutcomes.EachWinnerIsDue | contracts/src/lib.rs:1001-1004 | With no payee repeated, each positive entry of an accepted list is due to its own winner as it stands |
| EscrowOutcomes.PrizePaid | contracts/src/lib.rs:1468-1505 | Taking a prize moves exactly what is due from the escrow to its winner |
| EscrowOutcomes.FeesPaid | contracts/src/lib.rs:976-998 | Every balance after a settlement by list: the treasury gains the net fee, the affiliate the cut, the escrow loses both, nobody else changes |
| EscrowOutcomes.MerkleFeePaid | contracts/src/lib.rs:1549-1556 | Every balance after a settlement by root: the treasury gains the fee |
| EscrowOutcomes.HashOrigin | contracts/src/lib.rs:831-842 | A stored settlement hash is that of the winners and the fee of the one settlement of its league |
| EscrowPolicy.SucceedsIffPermitted | contracts/src/lib.rs:180-2292 | In a consistent state whose holdings cover its obligations every call succeeds iff a policy of signatures, stages, times and amounts permits it: no payout fails for want of tokens, overflow or underflow |
| EscrowPolicy.RunPermits | contracts/src/lib.rs:180-2292 | So in every reachable state in which withdrawals have taken no more than the surplus |
| EscrowPolicy.ConfigOrigin | contracts/src/lib.rs:243-292 | Signers, threshold and admin are those of the one initialisation, which all signers signed |
| EscrowPolicy.GuardianOrigin | contracts/src/lib.rs:342-352 | The guardian is the last one a quorum appointed |
| EscrowPolicy.PeersExactly | contracts/src/lib.rs:356-375 | The linked peers are exactly those a quorum has linked, each once, never the contract itself |
| EscrowRefunds.RefundLedger | contracts/src/lib.rs:463-1349 | Over a run, tokens taken from a participant by deposits less tokens returned by all five refund routes equal the stored entry, so no mix of routes refunds twice |
| EscrowRefunds.EntryFollowsTokens | contracts/src/lib.rs:463-1349 | The same for one event: only deposits and refunds touch an entry, and by exactly the tokens moved |
| EscrowRefunds.CountersMatch | contracts/src/lib.rs:1071-1349 | `total_deposited` equals the sum of the entries iff no list refund has returned anything, `participant_count` equals their number iff none has dropped an entry; otherwise they are above; no refund underflows either |
| EscrowRefunds.GapsAreListRefunds | contracts/src/lib.rs:1235-1250 | In every reachable state the excess of either counter is exactly what list refunds of the league have paid out, or the entries they have dropped |
| EscrowRefunds.GapStep | contracts/src/lib.rs:1071-1349 | The same for one event: every other route moves counters and entries together |
| EscrowWitnesses.ListRefundLeavesCounters | contracts/src/lib.rs:1235-1250 | A run after which a league with no deposits left still counts seven units and one participant |
| EscrowLifecycle.SettledAtMostOnce | contracts/src/lib.rs:588-589 | Once a league is settled or cancelled no settlement entry point ever succeeds on it, and its status never changes |
| EscrowLifecycle.SettlementOrigin | contracts/src/lib.rs:863-865 | A settled league was settled by exactly one event of the run, which found it Upcoming |
| EscrowLifecycle.LeagueLife | contracts/src/lib.rs:436-445 | Creator, entry fee and asset never change; status goes only from Upcoming to Settled or Cancelled |
| EscrowLifecycle.LeagueOrigin | contracts/src/lib.rs:415-445 | Its terms are those of its creation, which its creator signed |
| EscrowLifecycle.LifeStep | contracts/src/lib.rs:415-1583 | The same for one event; without a settlement no league becomes settled |
| EscrowMerkle.PaidAtMostOnce | contracts/src/lib.rs:1614-1617 | Two successful proof claims on one league are by different winners, whatever amounts and branches they show |
| EscrowMerkle.ProofsConserve | contracts/src/lib.rs:1650-1659 | Paid on proofs plus still unclaimed is always the committed tree's total |
| EscrowMerkle.PaidWithinPool | contracts/src/lib.rs:1545-1547 | Total paid on proofs never exceeds the `total_prize_pool` of the settlement, which with the fee is the deposits |
| EscrowTimelocks.WithdrawalTimelock | contracts/src/lib.rs:1973-2036 | An executed fee withdrawal pays exactly what was proposed, at least 34,560 ledgers later, was never executed before, and has at least max(threshold, min(2, signers)) distinct configured signers who each signed a proposal or approval |
| EscrowTimelocks.WithdrawalOrigin | contracts/src/lib.rs:1866-2036 | Every stored withdrawal comes from one proposal, unchanged, and is marked executed exactly when an execution of it has succeeded |
| EscrowTimelocks.UpgradeTimelock | contracts/src/lib.rs:1396-1422 | An executed upgrade follows the last proposal, for the same hash, with no replacement or upgrade between, at least 34,560 ledgers later, on a duplicate-free quorum |
| EscrowTimelocks.UpgradeOrigin | contracts/src/lib.rs:1353-1382 | The pending upgrade is the last proposal and has not been executed since |
| EscrowPauses.EmergencyRefundNeedsLongPause | contracts/src/lib.rs:1071-1141 | A successful emergency refund comes at least 14 days into an unbroken pause, returns a deposit this participant made, and every such deposit predates the start of that pause |
| EscrowPauses.PauseOrigin | contracts/src/lib.rs:210-412 | `PausedAt` is the time of the event that began the current pause; repeated emergency pauses do not move it |
| EscrowPauses.DepositOrigin | contracts/src/lib.rs:484-501 | A stored deposit was made by a deposit call of its participant |
| EscrowPauses.EmergencyHolds | contracts/src/lib.rs:210-221 | Within 86,400 s of an emergency pause the contract stays paused iff no quorum unpauses it |
| EscrowPauses.UnpauseExactly | contracts/src/lib.rs:310-334 | The admin can end a pause iff the delay of every emergency pause that no `unpause` has cleared is over, whichever pause began the present one; otherwise the error is `TimelockNotElapsed` |
| EscrowPauses.PauseStep | contracts/src/lib.rs:295-412 | One event and the three pause entries: a pause ends only by `unpause` at or after the stored delay or by a quorum, and only `unpause` clears the delay |
| EscrowPauses.DelayOrigin | contracts/src/lib.rs:216-219 | The stored delay is that of an emergency pause not cleared since |
| EscrowWitnesses.StaleDelay | contracts/src/lib.rs:2267-2285 | A run in which a quorum of one lifts an emergency pause at once and the delay left behind then blocks the end of an ordinary pause |
| EscrowTimelocks.RunGoverned | contracts/src/lib.rs:243-412 | The signer set never changes once configured; `IsPaused` iff `PausedAt`; approvals are distinct configured signers |
| EscrowTimelocks.QuorumExactly | contracts/src/lib.rs:1044-1067 | `authorize_signers` accepts exactly the duplicate-free lists of signing configured signers, of length between the threshold and the number of signers |
| EscrowTimelocks.HasQuorumIff | contracts/src/lib.rs:268-292 | Some list can ever be accepted iff the threshold is at most the number of different signers |
| EscrowTimelocks.LockedOut | contracts/src/lib.rs:268-292 | Otherwise no quorum call succeeds in any later state of any run |
| EscrowWitnesses.DuplicateSignersLockOut | contracts/src/lib.rs:276-287 | Initialisation accepts one signer named twice with a threshold of two |
| EscrowEffects.LeagueEffect | contracts/src/lib.rs:415-1783 | A successful call about leagues changes one league, in the stated way and under the stated guards, and of the rest only tokens and settlement hashes |
| EscrowEffects.RefundEachLeaves | contracts/src/lib.rs:1235-1247 | The refund loop drops exactly the entries of those named |
| EscrowMoney.SettlementFacts | contracts/src/lib.rs:871-972 | What the fee and winner checks establish: caps, no negative prize, fee plus prizes equal to the deposits |
| EscrowMoney.SettleKeeps | contracts/src/lib.rs:974-1014 | A settlement turns deposits into fees and recorded prizes; what is left over is exactly its stray money |
| EscrowMoney.RecordPrizesSum | contracts/src/lib.rs:1001-1011 | Recorded prizes never sum to more than the list, and to exactly the list iff no payee of a positive amount is repeated or had a prize before |
| EscrowMoney.RecordedPrize | contracts/src/lib.rs:1001-1011 | Each name ends up with the amount of the last positive entry naming it, and keeps what it had if there is none |
| EscrowMoney.FeeCaps | contracts/src/lib.rs:871-889 | The fee checks pass iff the cut is from 0 to a fifth of the fee, the fee at most a twentieth of the deposits, and 500 times the deposits fit i128 |
| EscrowOutcomes.HashStored | contracts/src/lib.rs:831-848 | An accepted hash is that of the list and is the one stored; an accepted proof is not all zero |
| EscrowMoney.SettledBooks | contracts/src/lib.rs:974-1014 | On the books of one league a settlement leaves exactly its stray money, none iff it is tight |
| EscrowMoney.SettleMerkleKeeps | contracts/src/lib.rs:1510-1583 | A Merkle settlement turns deposits into the fee and the committed pool |
| EscrowMoney.ClaimMerkleIsOwed | contracts/src/lib.rs:1626-1648 | A claim that passes the proof check is a committed, unclaimed prize of that amount |
| EscrowMoney.ClaimMerkleKeeps | contracts/src/lib.rs:1650-1659 | A proof claim lowers holdings and obligations alike |
| EscrowMoney.ClaimPrizeKeeps | contracts/src/lib.rs:1468-1505 | So does claiming a recorded prize |
| EscrowMoney.DepositKeeps | contracts/src/lib.rs:463-545 | A deposit raises both alike |
| EscrowMoney.ReturnDepositKeeps | contracts/src/lib.rs:1124-1135 | Returning one deposit lowers both alike |
| EscrowMoney.ReturnedPartition | contracts/src/lib.rs:1132-1135 | On a consistent unsettled league lowering both counters by a stored deposit never goes below zero and keeps them exact |
| EscrowMoney.RefundKeeps | contracts/src/lib.rs:1235-1250 | So does the admin refund of a list, with unknown and repeated names in it |
| EscrowMoney.ClaimRefundKeeps | contracts/src/lib.rs:1308-1349 | So does a claimed refund, which zeroes its entry |
| EscrowMoney.ExecuteWithdrawalKeeps | contracts/src/lib.rs:2015-2023 | An executed withdrawal moves its amount from holdings to the withdrawn total |
| EscrowMoney.RelabelKeeps | contracts/src/lib.rs:1685-1690 | Freezing, thawing and cancelling move no money and keep the invariant |
| PrizeSplit.BpsSplit | contracts/src/lib.rs:895-921 | For any pool and shares summing to 10,000: nothing lost, nothing negative, each non-last payout a multiple of 100,000 and short of its exact share by less than 200,000, the last above it by less than n * 100,000 |
| PrizeSplit.SaturatingTotalExact | contracts/src/lib.rs:899-908 | The saturating `u32` sum is the true sum or the maximum, so the 10,000 test is exact |
| PrizeSplit.AcceptedWinnersSumToPool | contracts/src/lib.rs:951-968 | In each of the five modes an accepted list is non-negative and sums to the pool |
| PrizeSplit.AcceptedIff | contracts/src/lib.rs:944-968 | A list is accepted iff it is the curve or the curve with the first place shared; no mixture gets through |
| PrizeSplit.CurvePlaces | contracts/src/lib.rs:922-942 | The places: all of the pool; 70 and 30 percent; 60, 30 and the rest, then nothing; a shared first place in halves that differ by at most one |
| PrizeSplit.WinnersInRange | contracts/src/lib.rs:888-972 | If 500 times the deposits fit i128, the prize check in i128 equals the check over unbounded integers |
| PrizeSplit.CurveInRange | contracts/src/lib.rs:889-942 | The same for the expected and tied-first payouts, with truncating division |
| PrizeSplit.PrefixBound | contracts/src/lib.rs:950-968 | The running sum never exceeds the fee and three times the pool |
| PrizeSplit.ExpectedPayouts | contracts/src/lib.rs:889-942 | The expected and tied-first payouts for each number of winners, or the error, each product checked against i128 |
| PrizeSplit.BasisPointCurve | contracts/src/lib.rs:895-909 | Validation of the shares, with the saturating sum |
| PrizeSplit.BasisPointPayouts | contracts/src/lib.rs:910-921 | The share loop in i128, the remainder last |
| PrizeSplit.MatchWinners | contracts/src/lib.rs:944-968 | First fault in list order decides; otherwise the fee plus every amount |
| Commitments.SettlementHashBinds | contracts/src/lib.rs:2296-2308 | Two settlement hashes agree iff winners, amounts, order and fee all agree (no collision between the two inputs) |
| Commitments.SettlementBytesInjective | contracts/src/lib.rs:2301-2306 | The concatenated XDR has one reading |
| Commitments.SettlementLayout | contracts/src/lib.rs:2301-2306 | Every winner is there, address before amount, the first at the start, and the fee is the last twenty bytes |
| Commitments.LeafLayout | contracts/src/lib.rs:1626-1631 | A leaf is the league, the winner and the amount, in that order |
| Commitments.PairBytes | contracts/src/lib.rs:1635-1642 | The smaller of the two hashes goes first |
| Host.XdrU64Meaning | contracts/src/lib.rs:1628 | The tag of a u64 and its value, most significant byte first |
| Host.XdrI128Meaning | contracts/src/lib.rs:1630 | The tag of an i128 and its value in two complement |
| Commitments.VerifyBranch | contracts/src/lib.rs:1626-1648 | The verification loop accepts iff the leaf climbs to the root along the branch |
| Commitments.BranchSound | contracts/src/lib.rs:1633-1648 | A branch that verifies proves the leaf is in the committed tree: leaf inputs are 72 or 76 bytes, node inputs 64 |
| Commitments.BranchComplete | contracts/src/lib.rs:1633-1648 | Every committed leaf has a branch that verifies |
| Commitments.CommittedIsEntitled | contracts/src/lib.rs:1507-1509 | With distinct winners, being in the tree is being entitled to exactly that amount |
| EscrowContract.Escrow.Invoke | contracts/src/lib.rs:180-2292 | Any invocation returns what the transition function says; an error leaves all storage and all tokens as they were |
| EscrowContract.Escrow.InvokeSafely | contracts/src/lib.rs:180-2292 | A fair invocation continues the run the object stands for: the surplus moves by the stray money, holdings cover obligations, and a withdrawal, upgrade or emergency refund that succeeds has waited as it must |
| EscrowContract.Escrow.ExactlySolvent | contracts/src/lib.rs:463-2036 | The object holds exactly what it owes iff it began empty and only tight events followed |
| EscrowContract.Escrow.Payable | contracts/src/lib.rs:1308-1667 | Outstanding claims on the object can be collected, in any order and in full, iff it holds what they are due together, and it does while withdrawals took no more than the surplus |
| EscrowContract.Escrow.RecordWinners | contracts/src/lib.rs:1000-1011 | The loop that records positive prizes, the last one winning |
| EscrowContract.Escrow.EnsureOperational | contracts/src/lib.rs:198-208 | Fails iff this contract or any linked peer is paused |
| EscrowContract.Escrow.AuthorizeSigners | contracts/src/lib.rs:1044-1067 | The nested loops agree with the quorum check, error for error |
| EscrowContract.Escrow.SettleInternal | contracts/src/lib.rs:815-1042 | New storage, ledger and result of every settlement wrapper, with every error case in order |
| EscrowContract.SettlementDigest | contracts/src/lib.rs:2296-2308 | The loop hashes the winners in order, then the fee |
| EscrowContract.Escrow.Refund | contracts/src/lib.rs:1198-1266 | The refund loop pays each name with a deposit once; counters stay, the league is cancelled |
| EscrowContract.Escrow.InitializeMultisig | contracts/src/lib.rs:268-292 | Signers and threshold as given, all signing, once |
| EscrowContract.Escrow.EmergencyPause | contracts/src/lib.rs:384-401 | The guardian's pause, undone as a whole if a peer refuses |
| SlidingWindow.WindowBound | backend/src/middleware/rateLimiter.ts:139-203 | Over any history, accepted requests of a key less than one window apart number at most its limit |
| SlidingWindow.RefusalWaitIsExact | backend/src/middleware/rateLimiter.ts:161-194 | In any history a refused request, with no traffic since, is admitted at an instant iff that is at or after now + `resetAfterMs` |
| SlidingWindow.WaitIsExact | backend/src/middleware/rateLimiter.ts:167-170 | The same for any set of cleaned-up buckets, several of them full at different times |
| SlidingWindow.AllOrNothing | backend/src/middleware/rateLimiter.ts:178-194 | A request charges every one of its keys or none, and touches no other key |
| SlidingWindow.AdmittedIff | backend/src/middleware/rateLimiter.ts:150-170 | Admitted iff every bucket has fewer live instants than its limit |
| SlidingWindow.ReplyIs | backend/src/middleware/rateLimiter.ts:161-202 | The reply names the limit and what is left of the first bucket with least left, this request counted if admitted; an admitted one is told when the oldest instant of that bucket goes |
| SlidingWindow.RefusalReset | backend/src/middleware/rateLimiter.ts:167-170 | A refused one is told the longest of the waits of its full buckets |
| SlidingWindow.EmptyReply | backend/src/middleware/rateLimiter.ts:155-202 | A request without buckets is admitted with limit 0, nothing left and a whole window |
| SlidingWindow.HistoryTail | backend/src/middleware/rateLimiter.ts:144-153 | What is stored is always the tail of what was accepted, and what was dropped is a window old |
| SlidingWindow.TraceRefines | backend/src/middleware/rateLimiter.ts:31-95 | On every trace callers get the same reply from the Lua script and the in-memory store iff the window is positive; for a request without buckets, iff infinity should arrive as 0 |
| SlidingWindow.TraceMatches | backend/src/middleware/rateLimiter.ts:31-95 | After every trace sorted sets and lists hold the same instants, or the key is gone with nothing alive in it |
| SlidingWindow.ScriptRefines | backend/src/middleware/rateLimiter.ts:43-95 | One request: the stores still match whatever has expired, and the script replies as the store does iff the window is positive, or nothing is charged |
| SlidingWindow.StoresAgreeIff | backend/src/middleware/rateLimiter.ts:70-94 | The exact condition for equal replies, after Redis has made integers of the script's numbers |
| SlidingWindow.ZeroWindowDiffers | backend/src/middleware/rateLimiter.ts:70-74 | With a window of 0 `PEXPIRE` deletes what has just been charged: the script says five are left, the store four |
| SlidingWindow.MemoryStore.Consume | backend/src/middleware/rateLimiter.ts:139-203 | Store and reply after one request |
| SlidingWindow.RedisStore.Eval | backend/src/middleware/rateLimiter.ts:31-95 | Sorted sets and reply after one run of the script |
| TokenBucket.CostBound | backend/src/graphql/complexityRateGovernor.ts:91-116 | Accepted cost between two requests d ms apart is at most max * (1 + d / 60000) |
| TokenBucket.SpendingBound | backend/src/graphql/complexityRateGovernor.ts:91-116 | The sharper form, with what is left in the bucket |
| TokenBucket.RefusedIff | backend/src/graphql/complexityRateGovernor.ts:91-121 | A request is refused iff, counted from some request on, it would take the accepted cost past a full bucket and what the time earns |
| TokenBucket.LeftExactly | backend/src/graphql/complexityRateGovernor.ts:91-121 | What is left is the least, over the requests so far, of that allowance less what was accepted since |
| TokenBucket.WaitIsExact | backend/src/graphql/complexityRateGovernor.ts:123-134 | A refused cost is admitted later iff it fits the bucket and the reported `retryAfter` has passed |
| TokenBucket.ScriptRefines | backend/src/graphql/complexityRateGovernor.ts:200-234 | With a TTL of at least 60 s the script serves every trace as the in-memory bucket does, expiry or not |
| TokenBucket.ShortTtlForgets | backend/src/graphql/complexityRateGovernor.ts:225-233 | With any shorter TTL some trace is served differently |
| TokenBucket.ScriptWaitIsSafe | backend/src/graphql/complexityRateGovernor.ts:307-322 | The wait computed from the truncated reply is never too short, and exact iff the token count is whole |
| TokenBucket.TruncatedIs | backend/src/graphql/complexityRateGovernor.ts:228-232 | What Redis makes of the token count: the fraction is dropped, towards zero |
| TokenBucket.InMemoryTokenBucket.Consume | backend/src/graphql/complexityRateGovernor.ts:106-135 | Buckets and reply after one request |
| TokenBucket.InMemoryTokenBucket.RefillTokens | backend/src/graphql/complexityRateGovernor.ts:91-101 | Refill in proportion to the time, up to the maximum |
| TokenBucket.RedisTokenBucket.Eval | backend/src/graphql/complexityRateGovernor.ts:200-234 | Stored key and reply after one run of the script |
| QueryAnalysis.InliningPreserves | backend/src/graphql/queryAnalyzer.ts:284-326 | Replacing every fragment spread and inline fragment by its fields leaves complexity, depth, both counts and the breakdown unchanged |
| QueryAnalysis.ClosedForm | backend/src/graphql/queryAnalyzer.ts:243-266 | Complexity is the sum over field occurrences of weight times the product of multipliers on the path; field count is their number |
| QueryAnalysis.MultiplierIs | backend/src/config/complexity.ts:248-264 | The first of first, last, limit, take that is not falsy decides, or take: a number counts for itself between one and the maximum, anything else is the default |
| QueryAnalysis.ArgNamedIs | backend/src/graphql/queryAnalyzer.ts:363-372 | Of several arguments of one name the last counts |
| QueryAnalysis.WeightIs | backend/src/config/complexity.ts:224-242 | A weight set for the path goes before that of list fields, told by their name alone, and that before the default |
| QueryAnalysis.OneFieldCosts | backend/src/graphql/queryAnalyzer.ts:236-278 | A document of one field asking for x items costs x times its weight |
| QueryAnalysis.Tallies | backend/src/graphql/queryAnalyzer.ts:277-283 | List fields are counted by occurrence, and the breakdown is about the paths that occur |
| QueryAnalysis.BreakdownIs | backend/src/graphql/queryAnalyzer.ts:271-278 | The breakdown gives each path what its fields cost with all below them |
| QueryAnalysis.ClosedFormBelow | backend/src/graphql/queryAnalyzer.ts:255-278 | The same below any path, scaled by the multipliers above it |
| QueryAnalysis.AnalyzeSelectionSet | backend/src/graphql/queryAnalyzer.ts:213-336 | The loop computes the analysis and terminates whenever the fragments it reaches can be ranked |
| QueryAnalysis.AnalysisEndsIff | backend/src/graphql/queryAnalyzer.ts:303-326 | The recursion ends, at some depth of open fragments, iff the fragments it reaches can be ranked |
| QueryAnalysis.RankedEnds | backend/src/graphql/queryAnalyzer.ts:303-326 | Then as many open fragments as the rank suffice, and the result is the analysis |
| QueryAnalysis.CycleNeverEnds | backend/src/graphql/queryAnalyzer.ts:303-326 | A fragment that spreads itself ends at no depth |
| QueryAnalysis.AnalyzerDepth | backend/src/graphql/queryAnalyzer.ts:213-336 | The analyzer's depth is the syntactic depth of the document with every fragment written out; never less than the validator's, and equal to it without spreads |
| QueryAnalysis.DepthsAgreeIff | backend/src/graphql/depthValidator.ts:135-212 | Validator and analyzer agree on a document under every acyclic choice of fragments iff it has no spreads |
| QueryAnalysis.SpreadReaches | backend/src/graphql/queryAnalyzer.ts:303-326 | Wherever a spread occurs, some definition of its fragment takes the analyzer as deep as one likes |
| QueryAnalysis.ValidateSelectionSetDepth | backend/src/graphql/depthValidator.ts:135-212 | Early exit or not, exceeds the limit iff the depth does; within it reports the depth, and always a path that leads there |
| QueryAnalysis.ValidateQueryDepth | backend/src/graphql/depthValidator.ts:69-118 | Without spreads accepts iff the analyzer's depth is within the limit, and then reports it |
| QueryAnalysis.CalculateSelectionSetDepth | backend/src/graphql/queryAnalyzer.ts:438-459 | One more than the syntactic depth |
| QueryAnalysis.CalculateQueryDepth | backend/src/graphql/queryAnalyzer.ts:420-433 | One more than the analyzer's depth without spreads; 0 with no operation |
| QueryAnalysis.SpreadHidesDepth | backend/src/graphql/depthValidator.ts:204-205 | A single spread hides a fragment of any depth from the validator, not from the analyzer |
| CanonicalJson.Canonical | backend/src/middleware/idempotency.ts:48-58 | Two values print alike iff they are equal up to key order, undefined fields, and undefined for null in arrays |
| CanonicalJson.ReadBack | backend/src/middleware/idempotency.ts:48-58 | A reader applied to the printed text, whatever non-digit follows, returns the value with fields sorted and the rest of the text |
| CanonicalJson.SamePrints | backend/src/middleware/idempotency.ts:53-57 | Equal values print alike |
| CanonicalJson.SameNormSame | backend/src/middleware/idempotency.ts:53-57 | Equal normal forms mean equal values |
| CanonicalJson.AscendingUnique | backend/src/middleware/idempotency.ts:54-55 | A sorted list of distinct keys is determined by its set of keys |
| CanonicalJson.CanonAscending | backend/src/middleware/idempotency.ts:53-55 | The printed keys are strictly ascending |
| CanonicalJson.ReadEscaped | backend/src/middleware/idempotency.ts:50 | Escaped strings, surrogate pairs and lone halves included, read back exactly |
| CanonicalJson.Punctuation | backend/src/middleware/idempotency.ts:49-57 | The punctuation, words and digits are those of JSON |
| CanonicalJson.EscapeIs | backend/src/middleware/idempotency.ts:50 | Which units are escaped, and how: by name, by a backslash, or in hex |
| RedisLock.MutualExclusion | backend/src/services/lockManager.ts:100-121 | Two critical sections overlap only if the earlier one had outlived its TTL before the later began |
| RedisLock.KeyIsSafe | backend/src/services/lockManager.ts:174-199 | Until its TTL is over, no step of anyone else, late releases included, takes a holder's key |
| RedisLock.ReturnsOnlyInTime | backend/src/services/lockManager.ts:136-169 | `withLock` returns a result only if the operation finished before the deadline |
| RedisLock.TtlNeverShort | backend/src/services/lockManager.ts:98 | Whole seconds never shorten the TTL and lengthen it by less than one second |
| RedisLock.AcquiresIff | backend/src/services/lockManager.ts:100-121 | An attempt acquires the lock iff it is in time, has turns left, and every call in its section has outlived its TTL: a release frees the lock at once |
| RedisLock.RunKeyHeld | backend/src/services/lockManager.ts:100-199 | A live key is that of a call in its section and expires with its TTL |
| RedisLock.ConflictAfterAllTurns | backend/src/services/lockManager.ts:100-130 | A conflict is reported only after every turn has been tried |
| RedisLock.RunKeeps | backend/src/services/lockManager.ts:76-169 | The lock invariant in every state of every interleaving |
| RedisLock.StepKeeps | backend/src/services/lockManager.ts:76-199 | Every step of every call keeps the lock invariant |
| ReadGuard.AlwaysConsistent | backend/src/config/primaryReadGuard.ts:16-42 | In every interleaving `active` counts the calls in flight and stays within the cap, at most one probe is in flight and `probing` says so, and `openUntil > 0` iff `failures` has reached the threshold |
| ReadGuard.NeverStuckOpen | backend/src/config/primaryReadGuard.ts:18-21 | A call is admitted iff there is capacity and, once the threshold of counted failures since the last success is reached, `cooldownMs` have passed since the last of them and no probe is in flight |
| ReadGuard.FieldsFollowEvents | backend/src/config/primaryReadGuard.ts:25-36 | `failures` counts the failures since the last success, and `openUntil` is the last counted one plus the cooldown, or 0 |
| ReadGuard.InFlightSince | backend/src/config/primaryReadGuard.ts:17-24 | A call in flight was admitted and has not ended, and is a probe iff the breaker had tripped by then |
| ReadGuard.CountedCodes | backend/src/config/primaryReadGuard.ts:30-32 | Which error codes count, by example |
| ReadGuard.StepKeeps | backend/src/config/primaryReadGuard.ts:22-41 | Every start, success and failure keeps this |
| ReadGuard.ZeroThresholdDisagrees | backend/src/config/primaryReadGuard.ts:33 | The flag and the count agree from the start iff the threshold is at least one |
| ReadGuard.PrimaryReadGuard.Begin | backend/src/config/primaryReadGuard.ts:17-23 | Admission and the new fields |
| ReadGuard.PrimaryReadGuard.Resolve | backend/src/config/primaryReadGuard.ts:25-28 | Fields after a success |
| ReadGuard.PrimaryReadGuard.Reject | backend/src/config/primaryReadGuard.ts:29-41 | Fields after a failure, caller errors not counted |

## Left out

- Storage lifetimes and rent (`extend_ttl`, `extend_league_ttl`, `extend_participant_page_ttl`), events and read-only views: no logic that the rest depends on.
- `publish_gameweek_result`, participant pages and dispute reason hashes: stored and read, never used by money or timelocks.
- `create_league` also calls the asset's `balance`; an asset that is not a token is not modelled.
- `propose_pause_action`, `approve_pause_action` and `execute_pause_action`: the last one's text is damaged and reads a field that `PauseProposal` does not have, so the first two have no effect to state.
- Federation across contracts: peers are sets of paused and of refusing addresses in the environment, not contracts with state.
- Replacing the WASM: `upgrade` consumes the proposal; what the new code does is open.
- `settle_with_distribution` checks the pause once more before `settle_internal`, which gives the same error first.
- EscrowContract.Escrow.SettleInternal: storage after an error is left open, because the host restores it; `Invoke` states the restored storage. The same holds for the other entry points.
- EscrowContract.Escrow.InvokeSafely: about fair invocations only; for any other, `Invoke` gives result and storage.
- The value of SHA-256, and the numbers of the error codes.
- Memory-store eviction, duplicate keys within one request, and changing limits: the bounds do not hold with them by design.
- Redis outages, fallback switching and script caching, in the limiter, the governor and the lock.
- SlidingWindow.WindowBound: says nothing for a limit below 1, with which the stores refuse every request.
- TokenBucket.ScriptRefines: exact reals, so rounding of floating point and of Redis number formatting is not modelled.
- The governor's separate limits for users and addresses: the maximum is a parameter.
- A root field named like a member of every JavaScript object, such as `constructor`, for which the weight table yields an inherited function and the complexity is not a number.
- The analyzer's cache, whose 32-bit key can collide, and timing fields; float rounding of costs.
- QueryAnalysis.AnalyzeSelectionSet: about analyses that end; JavaScript's own limit on the call stack is not modelled.
- Non-integer and very large numbers in JSON, `toJSON` and cycles.
- The idempotency middleware around `stableStringify`: its store is not part of this model.
- The lock's retry delays and jitter, the path without Redis, and errors of `set` and `eval`: an attempt is one step, at any time.
- Connection pools, controllers, database access, jobs, authentication and the frontend.
