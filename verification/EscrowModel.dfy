/**
 The escrow contract as a transition function: what each entry point returns and the storage it
 leaves. Storage entries whose key carries a league id are grouped by league into a Partition.
 */
module EscrowModel {
  import opened Wrappers
  import opened Host
  import opened Sums
  import opened PrizeSplit
  import opened Commitments

  const EMERGENCY_REFUND_SECONDS: int := 14 * 24 * 60 * 60
  const EMERGENCY_UNPAUSE_SECONDS: int := 24 * 60 * 60
  const TIMELOCK_LEDGERS: int := 2 * 17_280

  datatype Status = Upcoming | Active | Settled | Cancelled

  datatype League = League(creator: Address, entryFee: int, asset: Address,
                           totalDeposited: int, participantCount: int, status: Status)

  datatype Partition = Partition(league: League, deposits: map<Address, int>, claimable: map<Address, int>,
                                 root: Option<Hash>, claimed: set<Address>, frozen: bool)
  {
    predicate Closed() { league.status == Settled || league.status == Cancelled }
  }

  datatype AdminConfig = AdminConfig(signers: seq<Address>, threshold: nat)

  datatype Withdrawal = Withdrawal(proposer: Address, destination: Address, asset: Address, amount: int,
                                   unlockLedger: int, approvals: seq<Address>, executed: bool)

  datatype Upgrade = Upgrade(wasmHash: Hash, proposer: Address, unlockLedger: int)

  datatype State = State(admin: Option<Address>, config: Option<AdminConfig>,
                         paused: bool, pausedAt: Option<int>, unpauseAfter: Option<int>,
                         guardian: Option<Address>, peers: seq<Address>,
                         leagues: map<U64, Partition>, settlementHashes: map<U64, Hash>,
                         withdrawals: map<U64, Withdrawal>, upgrade: Option<Upgrade>,
                         ledger: Ledger)

  /** Everything the settlement wrappers pass on to `settle_internal`. */
  datatype Settlement = Settlement(approvals: seq<Address>, id: U64, winners: seq<WinnerPayout>,
                                   treasury: Address, fee: I128, affiliate: Option<Address>, cut: I128,
                                   proof: Option<Hash>, hash: Option<Hash>, bps: Option<seq<U32>>)

  datatype Call =
    | Initialize(admin: Address)
    | InitializeMultisig(signers: seq<Address>, threshold: U32)
    | Pause(admin: Address)
    | Unpause(admin: Address)
    | MultisigPause(approvals: seq<Address>)
    | MultisigUnpause(approvals: seq<Address>)
    | SetGuardian(approvals: seq<Address>, guardian: Address)
    | LinkPeer(approvals: seq<Address>, peer: Address)
    | EmergencyPause(guardian: Address)
    | FederatedPause(source: Address)
    | CreateLeague(creator: Address, id: U64, entryFee: I128, asset: Address)
    | Deposit(who: Address, id: U64)
    | Settle(settlement: Settlement)
    | EmergencyRefund(who: Address, id: U64)
    | RefundDeposit(admin: Address, id: U64, who: Address)
    | Refund(admin: Address, id: U64, participants: seq<Address>)
    | CancelLeague(caller: Address, id: U64)
    | ClaimRefund(who: Address, id: U64)
    | ClaimPrize(who: Address, id: U64)
    | SettleMerkle(admin: Address, id: U64, root: Hash, pool: I128, treasury: Address, fee: I128)
    | ClaimMerkle(id: U64, prize: WinnerPayout, branch: seq<Hash>)
    | Freeze(admin: Address, id: U64)
    | Unfreeze(admin: Address, id: U64)
    | ResolvePayout(admin: Address, id: U64, winners: seq<WinnerPayout>, treasury: Address, fee: I128)
    | ResolveRefund(admin: Address, id: U64, participants: seq<Address>)
    | ProposeUpgrade(proposer: Address, wasmHash: Hash)
    | DoUpgrade(approvals: seq<Address>, wasmHash: Hash)
    | ProposeWithdrawal(caller: Address, proposal: U64, destination: Address, asset: Address, amount: I128)
    | ApproveWithdrawal(caller: Address, proposal: U64)
    | ExecuteWithdrawal(caller: Address, proposal: U64)

  const EMPTY: State := State(None, None, false, None, None, None, [], map[], map[], map[], None, map[])

  // ---------- guards ----------

  predicate AllZero(bytes: Hash) {
    forall i :: 0 <= i < |bytes| ==> bytes[i] == 0
  }

  predicate NoneIn(xs: seq<Address>, set0: set<Address>) {
    forall i :: 0 <= i < |xs| ==> xs[i] !in set0
  }

  predicate AllIn(xs: seq<Address>, set0: set<Address>) {
    forall i :: 0 <= i < |xs| ==> xs[i] in set0
  }

  function EnsureOperational(s: State, env: Env): Check {
    Need(!s.paused && NoneIn(s.peers, env.pausedPeers), ContractPaused)
  }

  function RequireAdmin(s: State, env: Env, admin: Address): Check {
    if admin !in env.auth then Fail(HostTrap)
    else if s.admin.None? then Fail(NotInitialized)
    else Need(s.admin.value == admin, NotAuthorized)
  }

  function RequireSigner(s: State, env: Env, caller: Address): Check {
    if caller !in env.auth then Fail(HostTrap)
    else if s.config.None? then Fail(NotInitialized)
    else Need(caller in s.config.value.signers, NotAuthorized)
  }

  /** The verdict on one approval, given those before it. */
  function ApprovalCheck(env: Env, signers: seq<Address>, approvals: seq<Address>, i: nat): Check
    requires i < |approvals|
  {
    if approvals[i] in approvals[..i] then Fail(InvalidMultisig)
    else if approvals[i] !in signers then Fail(NotAuthorized)
    else RequireAuth(env, approvals[i])
  }

  function ApprovalsFrom(env: Env, signers: seq<Address>, approvals: seq<Address>, i: nat): (check: Check)
    requires i <= |approvals|
    ensures check.Fail? ==> check.error in {InvalidMultisig, NotAuthorized, HostTrap}
    decreases |approvals| - i
  {
    if i == |approvals| then Pass
    else
      var first := ApprovalCheck(env, signers, approvals, i);
      if first.Fail? then first else ApprovalsFrom(env, signers, approvals, i + 1)
  }

  function AuthorizeSigners(s: State, env: Env, approvals: seq<Address>): Check {
    if s.config.None? then Fail(NotInitialized)
    else if |approvals| < s.config.value.threshold || |approvals| > |s.config.value.signers| then Fail(InvalidMultisig)
    else ApprovalsFrom(env, s.config.value.signers, approvals, 0)
  }

  function FindLeague(s: State, id: U64): Result<Partition> {
    if id in s.leagues then Ok(s.leagues[id]) else Err(LeagueNotFound)
  }

  function FindDeposit(p: Partition, who: Address): Result<int> {
    if who in p.deposits then Ok(p.deposits[who]) else Err(NoDeposit)
  }

  // ---------- initialisation, pause and federation ----------

  function DoInitialize(s: State, env: Env, admin: Address): Result<State> {
    var _ :- Need(s.admin.None?, AlreadyInitialized);
    var _ :- RequireAuth(env, admin);
    Ok(s.(admin := Some(admin), paused := false, config := Some(AdminConfig([admin], 1))))
  }

  function DoInitializeMultisig(s: State, env: Env, signers: seq<Address>, threshold: U32): Result<State> {
    var _ :- Need(s.admin.None?, AlreadyInitialized);
    var _ :- Need(0 < threshold <= |signers| <= 32, InvalidMultisig);
    var _ :- Need(AllIn(signers, env.auth), HostTrap);
    Ok(s.(admin := Some(signers[0]), config := Some(AdminConfig(signers, threshold))))
  }

  function EnterPause(s: State, env: Env): Result<State> {
    var _ :- Need(!s.paused, AlreadyPaused);
    Ok(s.(paused := true, pausedAt := Some(env.time)))
  }

  function DoPause(s: State, env: Env, admin: Address): Result<State> {
    var _ :- RequireAdmin(s, env, admin);
    EnterPause(s, env)
  }

  function DoUnpause(s: State, env: Env, admin: Address): Result<State> {
    var _ :- RequireAdmin(s, env, admin);
    var _ :- Need(s.paused, NotPaused);
    var _ :- Need(s.unpauseAfter.None? || s.unpauseAfter.value <= env.time, TimelockNotElapsed);
    Ok(s.(paused := false, pausedAt := None, unpauseAfter := None))
  }

  function DoMultisigPause(s: State, env: Env, approvals: seq<Address>): Result<State> {
    var _ :- AuthorizeSigners(s, env, approvals);
    EnterPause(s, env)
  }

  /** Unlike `unpause`, this neither waits for nor clears the emergency delay. */
  function DoMultisigUnpause(s: State, env: Env, approvals: seq<Address>): Result<State> {
    var _ :- AuthorizeSigners(s, env, approvals);
    var _ :- Need(s.paused, NotPaused);
    Ok(s.(paused := false, pausedAt := None))
  }

  function DoSetGuardian(s: State, env: Env, approvals: seq<Address>, guardian: Address): Result<State> {
    var _ :- AuthorizeSigners(s, env, approvals);
    Ok(s.(guardian := Some(guardian)))
  }

  function DoLinkPeer(h: Platform, s: State, env: Env, approvals: seq<Address>, peer: Address): Result<State> {
    var _ :- AuthorizeSigners(s, env, approvals);
    var _ :- Need(peer != h.self, InvalidFederationPeer);
    Ok(s.(peers := if peer in s.peers then s.peers else s.peers + [peer]))
  }

  /** A pause already running keeps its start; only the unpause delay is renewed. */
  function EngageEmergencyPause(s: State, env: Env): State {
    var later := env.time + EMERGENCY_UNPAUSE_SECONDS;
    var until := if later > U64_MAX then U64_MAX else later;
    var paused := if s.paused then s else s.(paused := true, pausedAt := Some(env.time));
    paused.(unpauseAfter := Some(until))
  }

  function DoEmergencyPause(s: State, env: Env, guardian: Address): Result<State> {
    var _ :- RequireAuth(env, guardian);
    var _ :- Need(s.guardian == Some(guardian), NotAuthorized);
    var _ :- Need(NoneIn(s.peers, env.refusingPeers), HostTrap);
    Ok(EngageEmergencyPause(s, env))
  }

  function DoFederatedPause(s: State, env: Env, source: Address): Result<State> {
    var _ :- RequireAuth(env, source);
    var _ :- Need(source in s.peers, NotAuthorized);
    Ok(EngageEmergencyPause(s, env))
  }

  // ---------- leagues and deposits ----------

  function DoCreateLeague(s: State, env: Env, creator: Address, id: U64, entryFee: I128,
                          asset: Address): Result<State> {
    var _ :- RequireAuth(env, creator);
    var _ :- Need(entryFee >= 0, InvalidAmount);
    var _ :- Need(id !in s.leagues, LeagueAlreadyExists);
    var league := League(creator, entryFee, asset, 0, 0, Upcoming);
    Ok(s.(leagues := s.leagues[id := Partition(league, map[], map[], None, {}, false)]))
  }

  function DoDeposit(h: Platform, s: State, env: Env, who: Address, id: U64): Result<State> {
    var _ :- EnsureOperational(s, env);
    var _ :- RequireAuth(env, who);
    var p :- FindLeague(s, id);
    var league := p.league;
    var _ :- Need(league.status == Upcoming, LeagueNotAcceptingDeposits);
    var _ :- Need(who !in p.deposits, AlreadyDeposited);
    var ledger :- if league.entryFee > 0
                  then Transfer(s.ledger, league.asset, who, h.self, league.entryFee) else Ok(s.ledger);
    var total :- CheckedI128(league.totalDeposited + league.entryFee);
    var count :- CheckedU32(league.participantCount + 1);
    var p' := p.(deposits := p.deposits[who := league.entryFee],
                 league := league.(totalDeposited := total, participantCount := count));
    Ok(s.(leagues := s.leagues[id := p'], ledger := ledger))
  }

  /** Pays a deposit back, drops its entry and lowers both counters. */
  function ReturnDeposit(h: Platform, s: State, id: U64, who: Address, amount: int): Result<State>
    requires id in s.leagues
  {
    var p := s.leagues[id];
    var ledger :- Transfer(s.ledger, p.league.asset, h.self, who, amount);
    var total :- CheckedI128(p.league.totalDeposited - amount);
    var count :- CheckedU32(p.league.participantCount - 1);
    var p' := p.(deposits := p.deposits - {who},
                 league := p.league.(totalDeposited := total, participantCount := count));
    Ok(s.(leagues := s.leagues[id := p'], ledger := ledger))
  }

  function DoEmergencyRefund(h: Platform, s: State, env: Env, who: Address, id: U64): Result<State> {
    var _ :- RequireAuth(env, who);
    var _ :- Need(s.paused && s.pausedAt.Some?, NotPaused);
    var _ :- Need(s.pausedAt.value + EMERGENCY_REFUND_SECONDS <= U64_MAX, TimelockNotElapsed);
    var _ :- Need(s.pausedAt.value + EMERGENCY_REFUND_SECONDS <= env.time, TimelockNotElapsed);
    var p :- FindLeague(s, id);
    var _ :- Need(p.league.status != Settled, AlreadySettled);
    var _ :- Need(!p.frozen, ContractPaused);
    var amount :- FindDeposit(p, who);
    var _ :- Need(amount > 0, NoDeposit);
    ReturnDeposit(h, s, id, who, amount)
  }

  function DoRefundDeposit(h: Platform, s: State, env: Env, admin: Address, id: U64, who: Address): Result<State> {
    var _ :- RequireAdmin(s, env, admin);
    var p :- FindLeague(s, id);
    var _ :- Need(p.league.status != Settled, AlreadySettled);
    var amount :- FindDeposit(p, who);
    var _ :- Need(amount > 0, AlreadyClaimed);
    ReturnDeposit(h, s, id, who, amount)
  }

  /** Admin refunds, in list order; names without a deposit (or named before) are skipped. */
  function RefundEach(h: Platform, ledger: Ledger, asset: Address, deposits: map<Address, int>,
                      participants: seq<Address>)
    : Result<(Ledger, map<Address, int>)>
    decreases |participants|
  {
    if participants == [] then Ok((ledger, deposits))
    else
      var who, rest := participants[0], participants[1..];
      if who !in deposits then RefundEach(h, ledger, asset, deposits, rest)
      else
        var paid :- if deposits[who] > 0 then Transfer(ledger, asset, h.self, who, deposits[who]) else Ok(ledger);
        RefundEach(h, paid, asset, deposits - {who}, rest)
  }

  /** The league's counters are left as they were. */
  function DoRefund(h: Platform, s: State, env: Env, admin: Address, id: U64,
                    participants: seq<Address>): Result<State> {
    var _ :- RequireAdmin(s, env, admin);
    var p :- FindLeague(s, id);
    var _ :- Need(p.league.status != Settled, AlreadySettled);
    var outcome :- RefundEach(h, s.ledger, p.league.asset, p.deposits, participants);
    var p' := p.(deposits := outcome.1, league := p.league.(status := Cancelled));
    Ok(s.(leagues := s.leagues[id := p'], ledger := outcome.0))
  }

  function DoCancelLeague(s: State, env: Env, caller: Address, id: U64): Result<State> {
    var _ :- RequireAuth(env, caller);
    var p :- FindLeague(s, id);
    var _ :- Need(p.league.status != Settled, AlreadySettled);
    var _ :- Need(s.admin.Some?, NotInitialized);
    var _ :- Need(caller == s.admin.value || caller == p.league.creator, NotAuthorized);
    Ok(s.(leagues := s.leagues[id := p.(league := p.league.(status := Cancelled))]))
  }

  /** The entry is zeroed, not removed, and the head count stays. */
  function DoClaimRefund(h: Platform, s: State, env: Env, who: Address, id: U64): Result<State> {
    var _ :- RequireAuth(env, who);
    var p :- FindLeague(s, id);
    var _ :- Need(p.league.status == Cancelled, LeagueNotCancelled);
    var amount :- FindDeposit(p, who);
    var _ :- Need(amount > 0, AlreadyClaimed);
    var ledger :- Transfer(s.ledger, p.league.asset, h.self, who, amount);
    var total :- CheckedI128(p.league.totalDeposited - amount);
    var p' := p.(deposits := p.deposits[who := 0], league := p.league.(totalDeposited := total));
    Ok(s.(leagues := s.leagues[id := p'], ledger := ledger))
  }

  // ---------- settlement and prizes ----------

  function Amounts(winners: seq<WinnerPayout>): seq<int> {
    seq(|winners|, i requires 0 <= i < |winners| => winners[i].amount)
  }

  /** Prizes recorded for positive amounts; a repeated winner keeps only the last one. */
  function RecordPrizes(claimable: map<Address, int>, winners: seq<WinnerPayout>): map<Address, int>
    decreases |winners|
  {
    if winners == [] then claimable
    else
      var w := winners[0];
      RecordPrizes(if w.amount > 0 then claimable[w.winner := w.amount] else claimable, winners[1..])
  }

  /** Fee and affiliate caps: 5% of the deposits and 20% of the fee. */
  function CheckFees(total: int, fee: I128, cut: I128): Result<()> {
    var scaled :- CheckedI128(total * 500);
    var _ :- Need(fee <= Quot(scaled, 10_000), FeeExceedsMaxCap);
    var _ :- Need(cut >= 0, InvalidAmount);
    var _ :- Need(cut <= fee, InvalidFeeShare);
    var share :- CheckedI128(fee * 2_000);
    var _ :- Need(cut <= Quot(share, 10_000), InvalidFeeShare);
    Ok(())
  }

  function CheckHash(h: Platform, s: State, a: Settlement): Result<map<U64, Hash>> {
    if a.hash.None? then Ok(s.settlementHashes)
    else if h.sha256(SettlementBytes(a.winners, a.fee)) != a.hash.value then Err(HashMismatch)
    else Ok(s.settlementHashes[a.id := a.hash.value])
  }

  function PayFees(h: Platform, ledger: Ledger, asset: Address, a: Settlement): Result<Ledger> {
    var net := a.fee - a.cut;
    var paid :- if net > 0 then Transfer(ledger, asset, h.self, a.treasury, net) else Ok(ledger);
    if a.affiliate.Some? && a.cut > 0 then Transfer(paid, asset, h.self, a.affiliate.value, a.cut) else Ok(paid)
  }

  function DoSettle(h: Platform, s: State, env: Env, a: Settlement): Result<State> {
    var _ :- EnsureOperational(s, env);
    var _ :- AuthorizeSigners(s, env, a.approvals);
    var hashes :- CheckHash(h, s, a);
    var _ :- Need(a.proof.None? || !AllZero(a.proof.value), InvalidProof);
    var p :- FindLeague(s, a.id);
    var _ :- Need(!p.Closed(), AlreadySettled);
    var _ :- Need(!p.frozen, ContractPaused);
    var total := p.league.totalDeposited;
    var _ :- CheckFees(total, a.fee, a.cut);
    var payout :- CheckWinners(total, a.fee, Amounts(a.winners), a.bps);
    var _ :- Need(payout == total, PayoutExceedsDeposits);
    var ledger :- PayFees(h, s.ledger, p.league.asset, a);
    var p' := p.(claimable := RecordPrizes(p.claimable, a.winners), league := p.league.(status := Settled));
    Ok(s.(leagues := s.leagues[a.id := p'], settlementHashes := hashes, ledger := ledger))
  }

  function DoClaimPrize(h: Platform, s: State, env: Env, who: Address, id: U64): Result<State> {
    var _ :- EnsureOperational(s, env);
    var _ :- RequireAuth(env, who);
    var _ :- Need(id !in s.leagues || !s.leagues[id].frozen, ContractPaused);
    var _ :- Need(id in s.leagues && who in s.leagues[id].claimable, NoClaimablePrize);
    var p := s.leagues[id];
    var ledger :- Transfer(s.ledger, p.league.asset, h.self, who, p.claimable[who]);
    Ok(s.(leagues := s.leagues[id := p.(claimable := p.claimable - {who})], ledger := ledger))
  }

  /** Checks only this contract's own pause flag, not its peers'. */
  function DoSettleMerkle(h: Platform, s: State, env: Env, admin: Address, id: U64, root: Hash,
                          pool: I128, treasury: Address, fee: I128): Result<State>
  {
    var _ :- RequireAdmin(s, env, admin);
    var _ :- Need(!s.paused, ContractPaused);
    var _ :- Need(id !in s.leagues || !s.leagues[id].frozen, ContractPaused);
    var p :- FindLeague(s, id);
    var _ :- Need(!p.Closed(), AlreadySettled);
    var scaled :- CheckedI128(p.league.totalDeposited * 500);
    var _ :- Need(0 <= fee <= Quot(scaled, 10_000), FeeExceedsMaxCap);
    var _ :- Need(pool >= 0, PayoutExceedsDeposits);
    var sum :- CheckedI128(pool + fee);
    var _ :- Need(sum == p.league.totalDeposited, PayoutExceedsDeposits);
    var ledger :- if fee > 0 then Transfer(s.ledger, p.league.asset, h.self, treasury, fee) else Ok(s.ledger);
    var p' := p.(root := Some(root), league := p.league.(status := Settled));
    Ok(s.(leagues := s.leagues[id := p'], ledger := ledger))
  }

  /** Works while paused: there is no pause check on this route. */
  function DoClaimMerkle(h: Platform, s: State, env: Env, id: U64, prize: WinnerPayout,
                         branch: seq<Hash>): Result<State> {
    var _ :- RequireAuth(env, prize.winner);
    var _ :- Need(prize.amount > 0, InvalidAmount);
    var _ :- Need(id !in s.leagues || !s.leagues[id].frozen, ContractPaused);
    var p :- FindLeague(s, id);
    var _ :- Need(p.league.status == Settled, NoClaimablePrize);
    var _ :- Need(prize.winner !in p.claimed, AlreadyClaimed);
    var _ :- Need(p.root.Some?, NoClaimablePrize);
    var _ :- Need(BranchRoot(h.sha256, id, prize, branch) == p.root.value, InvalidProof);
    var ledger :- Transfer(s.ledger, p.league.asset, h.self, prize.winner, prize.amount);
    Ok(s.(leagues := s.leagues[id := p.(claimed := p.claimed + {prize.winner})], ledger := ledger))
  }

  // ---------- freeze and dispute ----------

  function DoFreeze(s: State, env: Env, admin: Address, id: U64): Result<State> {
    var _ :- RequireAdmin(s, env, admin);
    var p :- FindLeague(s, id);
    var _ :- Need(!p.Closed(), AlreadySettled);
    Ok(s.(leagues := s.leagues[id := p.(frozen := true)]))
  }

  function Thaw(s: State, id: U64): State {
    if id in s.leagues then s.(leagues := s.leagues[id := s.leagues[id].(frozen := false)]) else s
  }

  function DoUnfreeze(s: State, env: Env, admin: Address, id: U64): Result<State> {
    var _ :- RequireAdmin(s, env, admin);
    Ok(Thaw(s, id))
  }

  function PlainSettlement(admin: Address, id: U64, winners: seq<WinnerPayout>, treasury: Address,
                           fee: I128): Settlement {
    Settlement([admin], id, winners, treasury, fee, None, 0, None, None, None)
  }

  function DoResolvePayout(h: Platform, s: State, env: Env, admin: Address, id: U64,
                           winners: seq<WinnerPayout>, treasury: Address, fee: I128): Result<State>
  {
    var _ :- RequireAdmin(s, env, admin);
    DoSettle(h, Thaw(s, id), env, PlainSettlement(admin, id, winners, treasury, fee))
  }

  function DoResolveRefund(h: Platform, s: State, env: Env, admin: Address, id: U64,
                           participants: seq<Address>): Result<State> {
    var _ :- RequireAdmin(s, env, admin);
    DoRefund(h, Thaw(s, id), env, admin, id, participants)
  }

  // ---------- timelocks ----------

  function DoProposeUpgrade(s: State, env: Env, proposer: Address, wasmHash: Hash): Result<State> {
    var _ :- RequireSigner(s, env, proposer);
    var unlock :- CheckedU32(env.sequence + TIMELOCK_LEDGERS);
    Ok(s.(upgrade := Some(Upgrade(wasmHash, proposer, unlock))))
  }

  function ExecuteUpgrade(s: State, env: Env, approvals: seq<Address>, wasmHash: Hash): Result<State> {
    var _ :- AuthorizeSigners(s, env, approvals);
    var _ :- Need(s.upgrade.Some?, UpgradeNotProposed);
    var _ :- Need(s.upgrade.value.wasmHash == wasmHash, HashMismatch);
    var _ :- Need(env.sequence >= s.upgrade.value.unlockLedger, TimelockActive);
    Ok(s.(upgrade := None))
  }

  function DoProposeWithdrawal(s: State, env: Env, caller: Address, id: U64, destination: Address,
                               asset: Address, amount: I128): Result<State>
  {
    var _ :- RequireAuth(env, caller);
    var _ :- Need(amount > 0, InvalidAmount);
    var _ :- RequireSigner(s, env, caller);
    var _ :- Need(id !in s.withdrawals, AlreadyInitialized);
    var unlock :- CheckedU32(env.sequence + TIMELOCK_LEDGERS);
    Ok(s.(withdrawals := s.withdrawals[id := Withdrawal(caller, destination, asset, amount, unlock, [caller], false)]))
  }

  function DoApproveWithdrawal(s: State, env: Env, caller: Address, id: U64): Result<State> {
    var _ :- RequireSigner(s, env, caller);
    var _ :- Need(id in s.withdrawals, ProposalNotFound);
    var w := s.withdrawals[id];
    var _ :- Need(!w.executed, ProposalExecuted);
    var _ :- Need(caller !in w.approvals, AlreadyApproved);
    Ok(s.(withdrawals := s.withdrawals[id := w.(approvals := w.approvals + [caller])]))
  }

  function RequiredApprovals(config: AdminConfig): nat {
    if |config.signers| >= 2 && config.threshold < 2 then 2 else config.threshold
  }

  function DoExecuteWithdrawal(h: Platform, s: State, env: Env, caller: Address, id: U64): Result<State> {
    var _ :- RequireSigner(s, env, caller);
    var _ :- Need(id in s.withdrawals, ProposalNotFound);
    var w := s.withdrawals[id];
    var _ :- Need(!w.executed, ProposalExecuted);
    var _ :- Need(env.sequence >= w.unlockLedger, TimelockActive);
    var _ :- Need(|w.approvals| >= RequiredApprovals(s.config.value), InvalidMultisig);
    var ledger :- Transfer(s.ledger, w.asset, h.self, w.destination, w.amount);
    Ok(s.(withdrawals := s.withdrawals[id := w.(executed := true)], ledger := ledger))
  }

  // ---------- one invocation ----------

  function Exec(h: Platform, s: State, env: Env, call: Call): Result<State> {
    match call
    case Initialize(admin) => DoInitialize(s, env, admin)
    case InitializeMultisig(signers, threshold) => DoInitializeMultisig(s, env, signers, threshold)
    case Pause(admin) => DoPause(s, env, admin)
    case Unpause(admin) => DoUnpause(s, env, admin)
    case MultisigPause(approvals) => DoMultisigPause(s, env, approvals)
    case MultisigUnpause(approvals) => DoMultisigUnpause(s, env, approvals)
    case SetGuardian(approvals, guardian) => DoSetGuardian(s, env, approvals, guardian)
    case LinkPeer(approvals, peer) => DoLinkPeer(h, s, env, approvals, peer)
    case EmergencyPause(guardian) => DoEmergencyPause(s, env, guardian)
    case FederatedPause(source) => DoFederatedPause(s, env, source)
    case CreateLeague(creator, id, entryFee, asset) => DoCreateLeague(s, env, creator, id, entryFee, asset)
    case Deposit(who, id) => DoDeposit(h, s, env, who, id)
    case Settle(a) => DoSettle(h, s, env, a)
    case EmergencyRefund(who, id) => DoEmergencyRefund(h, s, env, who, id)
    case RefundDeposit(admin, id, who) => DoRefundDeposit(h, s, env, admin, id, who)
    case Refund(admin, id, participants) => DoRefund(h, s, env, admin, id, participants)
    case CancelLeague(caller, id) => DoCancelLeague(s, env, caller, id)
    case ClaimRefund(who, id) => DoClaimRefund(h, s, env, who, id)
    case ClaimPrize(who, id) => DoClaimPrize(h, s, env, who, id)
    case SettleMerkle(admin, id, root, pool, treasury, fee) =>
      DoSettleMerkle(h, s, env, admin, id, root, pool, treasury, fee)
    case ClaimMerkle(id, prize, branch) => DoClaimMerkle(h, s, env, id, prize, branch)
    case Freeze(admin, id) => DoFreeze(s, env, admin, id)
    case Unfreeze(admin, id) => DoUnfreeze(s, env, admin, id)
    case ResolvePayout(admin, id, winners, treasury, fee) =>
      DoResolvePayout(h, s, env, admin, id, winners, treasury, fee)
    case ResolveRefund(admin, id, participants) => DoResolveRefund(h, s, env, admin, id, participants)
    case ProposeUpgrade(proposer, wasmHash) => DoProposeUpgrade(s, env, proposer, wasmHash)
    case DoUpgrade(approvals, wasmHash) => ExecuteUpgrade(s, env, approvals, wasmHash)
    case ProposeWithdrawal(caller, id, destination, asset, amount) =>
      DoProposeWithdrawal(s, env, caller, id, destination, asset, amount)
    case ApproveWithdrawal(caller, id) => DoApproveWithdrawal(s, env, caller, id)
    case ExecuteWithdrawal(caller, id) => DoExecuteWithdrawal(h, s, env, caller, id)
  }
}
