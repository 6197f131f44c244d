/** The escrow contract itself: storage updated in place, entry point by entry point. */
module EscrowContract {
  import opened Wrappers
  import opened Host
  import opened Sums
  import opened PrizeSplit
  import opened Commitments
  import opened EscrowModel
  import opened EscrowMoney
  import opened EscrowEffects
  import opened EscrowRuns
  import opened EscrowPayout
  import opened EscrowTimelocks
  import opened EscrowPauses

  /** A result and the storage after it are those of the transition function; storage after an error is left open. */
  ghost predicate Agrees(spec: Result<State>, r: Result<()>, after: State) {
    match spec
    case Ok(s) => r == Ok(()) && after == s
    case Err(e) => r == Err(e)
  }

  /** Loop of `compute_settlement_hash_internal`. */
  method SettlementDigest(sha: Bytes -> Hash, winners: seq<WinnerPayout>, fee: I128) returns (digest: Hash)
    ensures digest == sha(SettlementBytes(winners, fee))
  {
    var data: Bytes := [];
    assert data + SettlementBytes(winners[0..], fee) == SettlementBytes(winners, fee);
    for i := 0 to |winners|
      invariant data + SettlementBytes(winners[i..], fee) == SettlementBytes(winners, fee)
    {
      assert winners[i..][1..] == winners[i + 1..];
      assert data + SettlementBytes(winners[i..], fee)
          == data + PayoutBytes(winners[i]) + SettlementBytes(winners[i + 1..], fee);
      data := data + (XdrAddress(winners[i].winner) + XdrI128(winners[i].amount));
    }
    data := data + XdrI128(fee);
    digest := sha(data);
  }

  class Escrow {
    const platform: Platform
    var admin: Option<Address>
    var config: Option<AdminConfig>
    var isPaused: bool
    var pausedAt: Option<int>
    var unpauseAfter: Option<int>
    var guardian: Option<Address>
    var peers: seq<Address>
    var leagues: map<U64, Partition>
    var settlementHashes: map<U64, Hash>
    var withdrawals: map<U64, Withdrawal>
    var pendingUpgrade: Option<Upgrade>
    /** The token contracts' books, changed here only through `transfer`. */
    var ledger: Ledger
    /** The prize trees behind the Merkle roots, and what has happened so far. */
    ghost const trees: Trees
    ghost var states: seq<State>
    ghost var events: seq<Event>

    ghost function Storage(): State
      reads this
    {
      State(admin, config, isPaused, pausedAt, unpauseAfter, guardian, peers,
            leagues, settlementHashes, withdrawals, pendingUpgrade, ledger)
    }

    constructor (platform: Platform, ledger: Ledger, ghost trees: Trees)
      ensures this.platform == platform && this.trees == trees && Storage() == EMPTY.(ledger := ledger)
      ensures Valid() && events == []
    {
      this.platform, this.trees := platform, trees;
      admin, config, guardian, peers := None, None, None, [];
      isPaused, pausedAt, unpauseAfter := false, None, None;
      leagues, settlementHashes, withdrawals, pendingUpgrade := map[], map[], map[], None;
      this.ledger := ledger;
      states, events := [EMPTY.(ledger := ledger)], [];
      new;
      RunBegins(platform, trees, Storage());
    }

    // ---------- guards ----------

    method EnsureOperational(env: Env) returns (r: Check)
      ensures r == EscrowModel.EnsureOperational(Storage(), env)
    {
      if isPaused { return Fail(ContractPaused); }
      for i := 0 to |peers|
        invariant NoneIn(peers[..i], env.pausedPeers)
      {
        if peers[i] in env.pausedPeers { return Fail(ContractPaused); }
      }
      assert peers[..|peers|] == peers;
      r := Pass;
    }

    method AuthorizeSigners(env: Env, approvals: seq<Address>) returns (r: Check)
      ensures r == EscrowModel.AuthorizeSigners(Storage(), env, approvals)
    {
      if config.None? { return Fail(NotInitialized); }
      var signers := config.value.signers;
      if |approvals| < config.value.threshold || |approvals| > |signers| { return Fail(InvalidMultisig); }
      for i := 0 to |approvals|
        invariant ApprovalsFrom(env, signers, approvals, i) == ApprovalsFrom(env, signers, approvals, 0)
      {
        for j := 0 to i
          invariant approvals[i] !in approvals[..j]
        {
          if approvals[j] == approvals[i] {
            assert approvals[j] in approvals[..i];
            return Fail(InvalidMultisig);
          }
        }
        if approvals[i] !in signers { return Fail(NotAuthorized); }
        if approvals[i] !in env.auth { return Fail(HostTrap); }
      }
      r := Pass;
    }

    method RequireAdmin(env: Env, caller: Address) returns (r: Check)
      ensures r == EscrowModel.RequireAdmin(Storage(), env, caller)
    {
      if caller !in env.auth { return Fail(HostTrap); }
      if admin.None? { return Fail(NotInitialized); }
      if caller != admin.value { return Fail(NotAuthorized); }
      r := Pass;
    }

    method RequireSigner(env: Env, caller: Address) returns (r: Check)
      ensures r == EscrowModel.RequireSigner(Storage(), env, caller)
    {
      if caller !in env.auth { return Fail(HostTrap); }
      if config.None? { return Fail(NotInitialized); }
      if caller !in config.value.signers { return Fail(NotAuthorized); }
      r := Pass;
    }

    /** A call into the token contract. */
    method Pay(asset: Address, from: Address, to: Address, amount: int) returns (r: Check)
      modifies this`ledger
      ensures match Transfer(old(ledger), asset, from, to, amount)
              case Ok(after) => r == Pass && ledger == after
              case Err(e) => r == Fail(e) && ledger == old(ledger)
    {
      var after := Transfer(ledger, asset, from, to, amount);
      if after.Err? { return Fail(after.error); }
      ledger := after.value;
      r := Pass;
    }

    // ---------- leagues and deposits ----------

    method CreateLeague(env: Env, creator: Address, id: U64, entryFee: I128, asset: Address) returns (r: Result<()>)
      modifies this
      ensures Agrees(DoCreateLeague(old(Storage()), env, creator, id, entryFee, asset), r, Storage())
    {
      var _ :- RequireAuth(env, creator);
      if entryFee < 0 { return Err(InvalidAmount); }
      if id in leagues { return Err(LeagueAlreadyExists); }
      var league := League(creator, entryFee, asset, 0, 0, Upcoming);
      leagues := leagues[id := Partition(league, map[], map[], None, {}, false)];
      r := Ok(());
    }

    method Deposit(env: Env, who: Address, id: U64) returns (r: Result<()>)
      modifies this
      ensures Agrees(DoDeposit(platform, old(Storage()), env, who, id), r, Storage())
    {
      var _ :- EnsureOperational(env);
      var _ :- RequireAuth(env, who);
      if id !in leagues { return Err(LeagueNotFound); }
      var p := leagues[id];
      if p.league.status != Upcoming { return Err(LeagueNotAcceptingDeposits); }
      if who in p.deposits { return Err(AlreadyDeposited); }
      if p.league.entryFee > 0 {
        var _ :- Pay(p.league.asset, who, platform.self, p.league.entryFee);
      }
      p := p.(deposits := p.deposits[who := p.league.entryFee]);
      var total :- CheckedI128(p.league.totalDeposited + p.league.entryFee);
      var count :- CheckedU32(p.league.participantCount + 1);
      leagues := leagues[id := p.(league := p.league.(totalDeposited := total, participantCount := count))];
      r := Ok(());
    }

    method ReturnDeposit(id: U64, who: Address, amount: int) returns (r: Result<()>)
      requires id in leagues
      modifies this
      ensures Agrees(EscrowModel.ReturnDeposit(platform, old(Storage()), id, who, amount), r, Storage())
    {
      var p := leagues[id];
      var _ :- Pay(p.league.asset, platform.self, who, amount);
      p := p.(deposits := p.deposits - {who});
      var total :- CheckedI128(p.league.totalDeposited - amount);
      var count :- CheckedU32(p.league.participantCount - 1);
      leagues := leagues[id := p.(league := p.league.(totalDeposited := total, participantCount := count))];
      r := Ok(());
    }

    method EmergencyRefund(env: Env, who: Address, id: U64) returns (r: Result<()>)
      modifies this
      ensures Agrees(DoEmergencyRefund(platform, old(Storage()), env, who, id), r, Storage())
    {
      var _ :- RequireAuth(env, who);
      if !isPaused || pausedAt.None? { return Err(NotPaused); }
      var unlockAt := pausedAt.value + EMERGENCY_REFUND_SECONDS;
      if unlockAt > U64_MAX { return Err(TimelockNotElapsed); }
      if env.time < unlockAt { return Err(TimelockNotElapsed); }
      if id !in leagues { return Err(LeagueNotFound); }
      var p := leagues[id];
      if p.league.status == Settled { return Err(AlreadySettled); }
      if p.frozen { return Err(ContractPaused); }
      if who !in p.deposits { return Err(NoDeposit); }
      if p.deposits[who] <= 0 { return Err(NoDeposit); }
      r := ReturnDeposit(id, who, p.deposits[who]);
    }

    method RefundDeposit(env: Env, caller: Address, id: U64, who: Address) returns (r: Result<()>)
      modifies this
      ensures Agrees(DoRefundDeposit(platform, old(Storage()), env, caller, id, who), r, Storage())
    {
      var _ :- RequireAdmin(env, caller);
      if id !in leagues { return Err(LeagueNotFound); }
      var p := leagues[id];
      if p.league.status == Settled { return Err(AlreadySettled); }
      if who !in p.deposits { return Err(NoDeposit); }
      if p.deposits[who] <= 0 { return Err(AlreadyClaimed); }
      r := ReturnDeposit(id, who, p.deposits[who]);
    }

    method Refund(env: Env, caller: Address, id: U64, participants: seq<Address>) returns (r: Result<()>)
      modifies this
      ensures Agrees(DoRefund(platform, old(Storage()), env, caller, id, participants), r, Storage())
    {
      var _ :- RequireAdmin(env, caller);
      if id !in leagues { return Err(LeagueNotFound); }
      var p := leagues[id];
      if p.league.status == Settled { return Err(AlreadySettled); }
      var deposits := p.deposits;
      assert participants[0..] == participants;
      for i := 0 to |participants|
        modifies this`ledger
        invariant RefundEach(platform, ledger, p.league.asset, deposits, participants[i..])
               == RefundEach(platform, old(ledger), p.league.asset, p.deposits, participants)
      {
        assert participants[i..][1..] == participants[i + 1..];
        var who := participants[i];
        if who in deposits {
          if deposits[who] > 0 {
            var _ :- Pay(p.league.asset, platform.self, who, deposits[who]);
          }
          deposits := deposits - {who};
        }
      }
      leagues := leagues[id := p.(deposits := deposits, league := p.league.(status := Cancelled))];
      r := Ok(());
    }

    method CancelLeague(env: Env, caller: Address, id: U64) returns (r: Result<()>)
      modifies this
      ensures Agrees(DoCancelLeague(old(Storage()), env, caller, id), r, Storage())
    {
      var _ :- RequireAuth(env, caller);
      if id !in leagues { return Err(LeagueNotFound); }
      var p := leagues[id];
      if p.league.status == Settled { return Err(AlreadySettled); }
      if admin.None? { return Err(NotInitialized); }
      if caller != admin.value && caller != p.league.creator { return Err(NotAuthorized); }
      leagues := leagues[id := p.(league := p.league.(status := Cancelled))];
      r := Ok(());
    }

    method ClaimRefund(env: Env, who: Address, id: U64) returns (r: Result<()>)
      modifies this
      ensures Agrees(DoClaimRefund(platform, old(Storage()), env, who, id), r, Storage())
    {
      var _ :- RequireAuth(env, who);
      if id !in leagues { return Err(LeagueNotFound); }
      var p := leagues[id];
      if p.league.status != Cancelled { return Err(LeagueNotCancelled); }
      if who !in p.deposits { return Err(NoDeposit); }
      var amount := p.deposits[who];
      if amount <= 0 { return Err(AlreadyClaimed); }
      var _ :- Pay(p.league.asset, platform.self, who, amount);
      p := p.(deposits := p.deposits[who := 0]);
      var total :- CheckedI128(p.league.totalDeposited - amount);
      leagues := leagues[id := p.(league := p.league.(totalDeposited := total))];
      r := Ok(());
    }

    // ---------- settlement and prizes ----------

    /** `settle_internal`; every settlement wrapper is this method with some arguments left out. */
    method SettleInternal(env: Env, a: Settlement) returns (r: Result<()>)
      modifies this
      ensures Agrees(DoSettle(platform, old(Storage()), env, a), r, Storage())
    {
      hide CheckFees, CheckWinners, CheckHash, PayFees, RecordPrizes, ApprovalsFrom;
      var _ :- EnsureOperational(env);
      var _ :- AuthorizeSigners(env, a.approvals);
      var _ :- CommitHash(a);
      if a.proof.Some? && AllZero(a.proof.value) { return Err(InvalidProof); }
      if a.id !in leagues { return Err(LeagueNotFound); }
      var p := leagues[a.id];
      if p.league.status == Settled || p.league.status == Cancelled { return Err(AlreadySettled); }
      if p.frozen { return Err(ContractPaused); }
      var _ :- CheckedFees(p.league.totalDeposited, a.fee, a.cut);
      var totalPayout :- CheckedPrizes(p.league.totalDeposited, a);
      if totalPayout != p.league.totalDeposited { return Err(PayoutExceedsDeposits); }
      var _ :- PaySettlementFees(p.league.asset, a);
      var claimable := RecordWinners(p.claimable, a.winners);
      leagues := leagues[a.id := p.(claimable := claimable, league := p.league.(status := Settled))];
      r := Ok(());
    }

    method CommitHash(a: Settlement) returns (r: Check)
      modifies this`settlementHashes
      ensures match CheckHash(platform, old(Storage()), a)
              case Ok(hashes) => r == Pass && settlementHashes == hashes
              case Err(e) => r == Fail(e)
    {
      if a.hash.Some? {
        var digest := SettlementDigest(platform.sha256, a.winners, a.fee);
        if digest != a.hash.value { return Fail(HashMismatch); }
        settlementHashes := settlementHashes[a.id := a.hash.value];
      }
      r := Pass;
    }

    method PaySettlementFees(asset: Address, a: Settlement) returns (r: Check)
      modifies this`ledger
      ensures match PayFees(platform, old(ledger), asset, a)
              case Ok(after) => r == Pass && ledger == after
              case Err(e) => r == Fail(e)
    {
      r := Pass;
      var net := a.fee - a.cut;
      if net > 0 {
        r := Pay(asset, platform.self, a.treasury, net);
      }
      if r.Pass? && a.affiliate.Some? && a.cut > 0 {
        r := Pay(asset, platform.self, a.affiliate.value, a.cut);
      }
    }

    static method CheckedFees(total: int, fee: I128, cut: I128) returns (r: Result<()>)
      ensures r == CheckFees(total, fee, cut)
    {
      var scaled :- CheckedI128(total * 500);
      if fee > Quot(scaled, 10_000) { return Err(FeeExceedsMaxCap); }
      if cut < 0 { return Err(InvalidAmount); }
      if cut > fee { return Err(InvalidFeeShare); }
      var share :- CheckedI128(fee * 2_000);
      if cut > Quot(share, 10_000) { return Err(InvalidFeeShare); }
      r := Ok(());
    }

    static method CheckedPrizes(total: int, a: Settlement) returns (r: Result<int>)
      ensures r == CheckWinners(total, a.fee, Amounts(a.winners), a.bps)
    {
      var pool :- CheckedI128(total - a.fee);
      var curve :- ExpectedPayouts(pool, |a.winners|, a.bps);
      r := MatchWinners(Amounts(a.winners), curve, a.fee);
    }

    static method RecordWinners(before: map<Address, int>, winners: seq<WinnerPayout>)
      returns (claimable: map<Address, int>)
      ensures claimable == RecordPrizes(before, winners)
    {
      claimable := before;
      assert winners[0..] == winners;
      for i := 0 to |winners|
        invariant RecordPrizes(claimable, winners[i..]) == RecordPrizes(before, winners)
      {
        assert winners[i..][1..] == winners[i + 1..];
        if winners[i].amount > 0 {
          claimable := claimable[winners[i].winner := winners[i].amount];
        }
      }
    }

    method ClaimPrize(env: Env, who: Address, id: U64) returns (r: Result<()>)
      modifies this
      ensures Agrees(DoClaimPrize(platform, old(Storage()), env, who, id), r, Storage())
    {
      var _ :- EnsureOperational(env);
      var _ :- RequireAuth(env, who);
      if id in leagues && leagues[id].frozen { return Err(ContractPaused); }
      if id !in leagues || who !in leagues[id].claimable { return Err(NoClaimablePrize); }
      var p := leagues[id];
      var _ :- Pay(p.league.asset, platform.self, who, p.claimable[who]);
      leagues := leagues[id := p.(claimable := p.claimable - {who})];
      r := Ok(());
    }

    method SettleMerkle(env: Env, caller: Address, id: U64, root: Hash, pool: I128, treasury: Address, fee: I128)
      returns (r: Result<()>)
      modifies this
      ensures Agrees(DoSettleMerkle(platform, old(Storage()), env, caller, id, root, pool, treasury, fee), r, Storage())
    {
      var _ :- RequireAdmin(env, caller);
      if isPaused { return Err(ContractPaused); }
      if id in leagues && leagues[id].frozen { return Err(ContractPaused); }
      if id !in leagues { return Err(LeagueNotFound); }
      var p := leagues[id];
      if p.league.status == Settled || p.league.status == Cancelled { return Err(AlreadySettled); }
      var scaled :- CheckedI128(p.league.totalDeposited * 500);
      if fee > Quot(scaled, 10_000) || fee < 0 { return Err(FeeExceedsMaxCap); }
      if pool < 0 { return Err(PayoutExceedsDeposits); }
      var sum :- CheckedI128(pool + fee);
      if sum != p.league.totalDeposited { return Err(PayoutExceedsDeposits); }
      if fee > 0 {
        var _ :- Pay(p.league.asset, platform.self, treasury, fee);
      }
      leagues := leagues[id := p.(root := Some(root), league := p.league.(status := Settled))];
      r := Ok(());
    }

    method ClaimMerkle(env: Env, id: U64, prize: WinnerPayout, branch: seq<Hash>) returns (r: Result<()>)
      modifies this
      ensures Agrees(DoClaimMerkle(platform, old(Storage()), env, id, prize, branch), r, Storage())
    {
      var _ :- RequireAuth(env, prize.winner);
      if prize.amount <= 0 { return Err(InvalidAmount); }
      if id in leagues && leagues[id].frozen { return Err(ContractPaused); }
      if id !in leagues { return Err(LeagueNotFound); }
      var p := leagues[id];
      if p.league.status != Settled { return Err(NoClaimablePrize); }
      if prize.winner in p.claimed { return Err(AlreadyClaimed); }
      if p.root.None? { return Err(NoClaimablePrize); }
      var verified := VerifyBranch(platform.sha256, id, prize, branch, p.root.value);
      if !verified { return Err(InvalidProof); }
      leagues := leagues[id := p.(claimed := p.claimed + {prize.winner})];
      var _ :- Pay(p.league.asset, platform.self, prize.winner, prize.amount);
      r := Ok(());
    }

    // ---------- freeze and dispute ----------

    method Freeze(env: Env, caller: Address, id: U64) returns (r: Result<()>)
      modifies this
      ensures Agrees(DoFreeze(old(Storage()), env, caller, id), r, Storage())
    {
      var _ :- RequireAdmin(env, caller);
      if id !in leagues { return Err(LeagueNotFound); }
      if leagues[id].league.status == Settled || leagues[id].league.status == Cancelled { return Err(AlreadySettled); }
      leagues := leagues[id := leagues[id].(frozen := true)];
      r := Ok(());
    }

    method RemoveFreeze(id: U64)
      modifies this`leagues
      ensures Storage() == Thaw(old(Storage()), id)
    {
      if id in leagues { leagues := leagues[id := leagues[id].(frozen := false)]; }
    }

    method Unfreeze(env: Env, caller: Address, id: U64) returns (r: Result<()>)
      modifies this
      ensures Agrees(DoUnfreeze(old(Storage()), env, caller, id), r, Storage())
    {
      var _ :- RequireAdmin(env, caller);
      RemoveFreeze(id);
      r := Ok(());
    }

    method ResolvePayout(env: Env, caller: Address, id: U64, winners: seq<WinnerPayout>, treasury: Address, fee: I128)
      returns (r: Result<()>)
      modifies this
      ensures Agrees(DoResolvePayout(platform, old(Storage()), env, caller, id, winners, treasury, fee), r, Storage())
    {
      var _ :- RequireAdmin(env, caller);
      RemoveFreeze(id);
      r := SettleInternal(env, PlainSettlement(caller, id, winners, treasury, fee));
    }

    method ResolveRefund(env: Env, caller: Address, id: U64, participants: seq<Address>) returns (r: Result<()>)
      modifies this
      ensures Agrees(DoResolveRefund(platform, old(Storage()), env, caller, id, participants), r, Storage())
    {
      var _ :- RequireAdmin(env, caller);
      RemoveFreeze(id);
      r := Refund(env, caller, id, participants);
    }

    // ---------- initialisation, pause and federation ----------

    method Initialize(env: Env, caller: Address) returns (r: Result<()>)
      modifies this
      ensures Agrees(DoInitialize(old(Storage()), env, caller), r, Storage())
    {
      if admin.Some? { return Err(AlreadyInitialized); }
      var _ :- RequireAuth(env, caller);
      admin, isPaused, config := Some(caller), false, Some(AdminConfig([caller], 1));
      r := Ok(());
    }

    method InitializeMultisig(env: Env, signers: seq<Address>, threshold: U32) returns (r: Result<()>)
      modifies this
      ensures Agrees(DoInitializeMultisig(old(Storage()), env, signers, threshold), r, Storage())
    {
      if admin.Some? { return Err(AlreadyInitialized); }
      if threshold == 0 || threshold > |signers| || |signers| > 32 { return Err(InvalidMultisig); }
      for i := 0 to |signers|
        invariant AllIn(signers[..i], env.auth)
      {
        if signers[i] !in env.auth { return Err(HostTrap); }
      }
      assert signers[..|signers|] == signers;
      admin, config := Some(signers[0]), Some(AdminConfig(signers, threshold));
      r := Ok(());
    }

    method StartPause(env: Env) returns (r: Result<()>)
      modifies this
      ensures Agrees(EnterPause(old(Storage()), env), r, Storage())
    {
      if isPaused { return Err(AlreadyPaused); }
      isPaused, pausedAt := true, Some(env.time);
      r := Ok(());
    }

    method Pause(env: Env, caller: Address) returns (r: Result<()>)
      modifies this
      ensures Agrees(DoPause(old(Storage()), env, caller), r, Storage())
    {
      var _ :- RequireAdmin(env, caller);
      r := StartPause(env);
    }

    method Unpause(env: Env, caller: Address) returns (r: Result<()>)
      modifies this
      ensures Agrees(DoUnpause(old(Storage()), env, caller), r, Storage())
    {
      var _ :- RequireAdmin(env, caller);
      if !isPaused { return Err(NotPaused); }
      if unpauseAfter.Some? && env.time < unpauseAfter.value { return Err(TimelockNotElapsed); }
      isPaused, pausedAt, unpauseAfter := false, None, None;
      r := Ok(());
    }

    method MultisigPause(env: Env, approvals: seq<Address>) returns (r: Result<()>)
      modifies this
      ensures Agrees(DoMultisigPause(old(Storage()), env, approvals), r, Storage())
    {
      var _ :- AuthorizeSigners(env, approvals);
      r := StartPause(env);
    }

    method MultisigUnpause(env: Env, approvals: seq<Address>) returns (r: Result<()>)
      modifies this
      ensures Agrees(DoMultisigUnpause(old(Storage()), env, approvals), r, Storage())
    {
      var _ :- AuthorizeSigners(env, approvals);
      if !isPaused { return Err(NotPaused); }
      isPaused, pausedAt := false, None;
      r := Ok(());
    }

    method SetGuardian(env: Env, approvals: seq<Address>, newGuardian: Address) returns (r: Result<()>)
      modifies this
      ensures Agrees(DoSetGuardian(old(Storage()), env, approvals, newGuardian), r, Storage())
    {
      var _ :- AuthorizeSigners(env, approvals);
      guardian := Some(newGuardian);
      r := Ok(());
    }

    method LinkPeer(env: Env, approvals: seq<Address>, peer: Address) returns (r: Result<()>)
      modifies this
      ensures Agrees(DoLinkPeer(platform, old(Storage()), env, approvals, peer), r, Storage())
    {
      var _ :- AuthorizeSigners(env, approvals);
      if peer == platform.self { return Err(InvalidFederationPeer); }
      if peer !in peers { peers := peers + [peer]; }
      r := Ok(());
    }

    method EngageEmergencyPause(env: Env)
      modifies this
      ensures Storage() == EscrowModel.EngageEmergencyPause(old(Storage()), env)
    {
      if !isPaused { isPaused, pausedAt := true, Some(env.time); }
      var until := env.time + EMERGENCY_UNPAUSE_SECONDS;
      unpauseAfter := Some(if until > U64_MAX then U64_MAX else until);
    }

    method EmergencyPause(env: Env, caller: Address) returns (r: Result<()>)
      modifies this
      ensures Agrees(DoEmergencyPause(old(Storage()), env, caller), r, Storage())
    {
      var _ :- RequireAuth(env, caller);
      if guardian != Some(caller) { return Err(NotAuthorized); }
      EngageEmergencyPause(env);
      for i := 0 to |peers|
        invariant NoneIn(peers[..i], env.refusingPeers)
      {
        if peers[i] in env.refusingPeers { return Err(HostTrap); }
      }
      assert peers[..|peers|] == peers;
      r := Ok(());
    }

    method FederatedPause(env: Env, source: Address) returns (r: Result<()>)
      modifies this
      ensures Agrees(DoFederatedPause(old(Storage()), env, source), r, Storage())
    {
      var _ :- RequireAuth(env, source);
      if source !in peers { return Err(NotAuthorized); }
      EngageEmergencyPause(env);
      r := Ok(());
    }

    // ---------- timelocks ----------

    method ProposeUpgrade(env: Env, proposer: Address, wasmHash: Hash) returns (r: Result<()>)
      modifies this
      ensures Agrees(DoProposeUpgrade(old(Storage()), env, proposer, wasmHash), r, Storage())
    {
      var _ :- RequireSigner(env, proposer);
      var unlock :- CheckedU32(env.sequence + TIMELOCK_LEDGERS);
      pendingUpgrade := Some(Upgrade(wasmHash, proposer, unlock));
      r := Ok(());
    }

    method UpgradeCode(env: Env, approvals: seq<Address>, wasmHash: Hash) returns (r: Result<()>)
      modifies this
      ensures Agrees(ExecuteUpgrade(old(Storage()), env, approvals, wasmHash), r, Storage())
    {
      var _ :- AuthorizeSigners(env, approvals);
      if pendingUpgrade.None? { return Err(UpgradeNotProposed); }
      if pendingUpgrade.value.wasmHash != wasmHash { return Err(HashMismatch); }
      if env.sequence < pendingUpgrade.value.unlockLedger { return Err(TimelockActive); }
      pendingUpgrade := None;
      r := Ok(());
    }

    method ProposeWithdrawal(env: Env, caller: Address, id: U64, destination: Address, asset: Address, amount: I128)
      returns (r: Result<()>)
      modifies this
      ensures Agrees(DoProposeWithdrawal(old(Storage()), env, caller, id, destination, asset, amount), r, Storage())
    {
      var _ :- RequireAuth(env, caller);
      if amount <= 0 { return Err(InvalidAmount); }
      var _ :- RequireSigner(env, caller);
      if id in withdrawals { return Err(AlreadyInitialized); }
      var unlock :- CheckedU32(env.sequence + TIMELOCK_LEDGERS);
      withdrawals := withdrawals[id := Withdrawal(caller, destination, asset, amount, unlock, [caller], false)];
      r := Ok(());
    }

    method ApproveWithdrawal(env: Env, caller: Address, id: U64) returns (r: Result<()>)
      modifies this
      ensures Agrees(DoApproveWithdrawal(old(Storage()), env, caller, id), r, Storage())
    {
      var _ :- RequireSigner(env, caller);
      if id !in withdrawals { return Err(ProposalNotFound); }
      var w := withdrawals[id];
      if w.executed { return Err(ProposalExecuted); }
      if caller in w.approvals { return Err(AlreadyApproved); }
      withdrawals := withdrawals[id := w.(approvals := w.approvals + [caller])];
      r := Ok(());
    }

    method ExecuteWithdrawal(env: Env, caller: Address, id: U64) returns (r: Result<()>)
      modifies this
      ensures Agrees(DoExecuteWithdrawal(platform, old(Storage()), env, caller, id), r, Storage())
    {
      var _ :- RequireSigner(env, caller);
      if id !in withdrawals { return Err(ProposalNotFound); }
      var w := withdrawals[id];
      if w.executed { return Err(ProposalExecuted); }
      if env.sequence < w.unlockLedger { return Err(TimelockActive); }
      var required := if |config.value.signers| >= 2 && config.value.threshold < 2 then 2 else config.value.threshold;
      if |w.approvals| < required { return Err(InvalidMultisig); }
      var _ :- Pay(w.asset, platform.self, w.destination, w.amount);
      withdrawals := withdrawals[id := w.(executed := true)];
      r := Ok(());
    }

    // ---------- the host's view ----------

    method DispatchAdministrative(env: Env, call: Call) returns (r: Result<()>)
      requires Administrative(call)
      modifies this
      ensures Agrees(Exec(platform, old(Storage()), env, call), r, Storage())
    {
      hide Agrees, DoInitialize, DoInitializeMultisig, DoPause, DoUnpause, DoMultisigPause, DoMultisigUnpause,
        DoSetGuardian, DoLinkPeer, DoEmergencyPause, DoFederatedPause, DoCreateLeague, DoDeposit,
        DoEmergencyRefund, DoRefundDeposit, DoRefund, DoCancelLeague, DoClaimRefund, DoSettle, DoClaimPrize,
        DoSettleMerkle, DoClaimMerkle, DoFreeze, DoUnfreeze, DoResolvePayout, DoResolveRefund,
        DoProposeUpgrade, ExecuteUpgrade, DoProposeWithdrawal, DoApproveWithdrawal, DoExecuteWithdrawal;
      match call
      case Initialize(caller) => r := Initialize(env, caller);
      case InitializeMultisig(signers, threshold) => r := InitializeMultisig(env, signers, threshold);
      case Pause(caller) => r := Pause(env, caller);
      case Unpause(caller) => r := Unpause(env, caller);
      case MultisigPause(approvals) => r := MultisigPause(env, approvals);
      case MultisigUnpause(approvals) => r := MultisigUnpause(env, approvals);
      case SetGuardian(approvals, newGuardian) => r := SetGuardian(env, approvals, newGuardian);
      case LinkPeer(approvals, peer) => r := LinkPeer(env, approvals, peer);
      case EmergencyPause(caller) => r := EmergencyPause(env, caller);
      case FederatedPause(source) => r := FederatedPause(env, source);
      case ProposeUpgrade(proposer, wasmHash) => r := ProposeUpgrade(env, proposer, wasmHash);
      case DoUpgrade(approvals, wasmHash) => r := UpgradeCode(env, approvals, wasmHash);
    }

    method DispatchLeague(env: Env, call: Call) returns (r: Result<()>)
      requires LeagueCall(call)
      modifies this
      ensures Agrees(Exec(platform, old(Storage()), env, call), r, Storage())
    {
      hide Agrees, DoInitialize, DoInitializeMultisig, DoPause, DoUnpause, DoMultisigPause, DoMultisigUnpause,
        DoSetGuardian, DoLinkPeer, DoEmergencyPause, DoFederatedPause, DoCreateLeague, DoDeposit,
        DoEmergencyRefund, DoRefundDeposit, DoRefund, DoCancelLeague, DoClaimRefund, DoSettle, DoClaimPrize,
        DoSettleMerkle, DoClaimMerkle, DoFreeze, DoUnfreeze, DoResolvePayout, DoResolveRefund,
        DoProposeUpgrade, ExecuteUpgrade, DoProposeWithdrawal, DoApproveWithdrawal, DoExecuteWithdrawal;
      match call
      case CreateLeague(creator, id, entryFee, asset) => r := CreateLeague(env, creator, id, entryFee, asset);
      case Deposit(who, id) => r := Deposit(env, who, id);
      case Settle(a) => r := SettleInternal(env, a);
      case EmergencyRefund(who, id) => r := EmergencyRefund(env, who, id);
      case RefundDeposit(caller, id, who) => r := RefundDeposit(env, caller, id, who);
      case Refund(caller, id, participants) => r := Refund(env, caller, id, participants);
      case CancelLeague(caller, id) => r := CancelLeague(env, caller, id);
      case ClaimRefund(who, id) => r := ClaimRefund(env, who, id);
      case ClaimPrize(who, id) => r := ClaimPrize(env, who, id);
      case SettleMerkle(caller, id, root, pool, treasury, fee) =>
        r := SettleMerkle(env, caller, id, root, pool, treasury, fee);
      case ClaimMerkle(id, prize, branch) => r := ClaimMerkle(env, id, prize, branch);
      case Freeze(caller, id) => r := Freeze(env, caller, id);
      case Unfreeze(caller, id) => r := Unfreeze(env, caller, id);
      case ResolvePayout(caller, id, winners, treasury, fee) =>
        r := ResolvePayout(env, caller, id, winners, treasury, fee);
      case ResolveRefund(caller, id, participants) => r := ResolveRefund(env, caller, id, participants);
    }

    method Dispatch(env: Env, call: Call) returns (r: Result<()>)
      modifies this
      ensures Agrees(Exec(platform, old(Storage()), env, call), r, Storage())
    {
      hide Agrees, DoInitialize, DoInitializeMultisig, DoPause, DoUnpause, DoMultisigPause, DoMultisigUnpause,
        DoSetGuardian, DoLinkPeer, DoEmergencyPause, DoFederatedPause, DoCreateLeague, DoDeposit,
        DoEmergencyRefund, DoRefundDeposit, DoRefund, DoCancelLeague, DoClaimRefund, DoSettle, DoClaimPrize,
        DoSettleMerkle, DoClaimMerkle, DoFreeze, DoUnfreeze, DoResolvePayout, DoResolveRefund,
        DoProposeUpgrade, ExecuteUpgrade, DoProposeWithdrawal, DoApproveWithdrawal, DoExecuteWithdrawal;
      if Administrative(call) {
        r := DispatchAdministrative(env, call);
      } else if LeagueCall(call) {
        r := DispatchLeague(env, call);
      } else {
        match call
        case ProposeWithdrawal(caller, id, destination, asset, amount) =>
          r := ProposeWithdrawal(env, caller, id, destination, asset, amount);
        case ApproveWithdrawal(caller, id) => r := ApproveWithdrawal(env, caller, id);
        case ExecuteWithdrawal(caller, id) => r := ExecuteWithdrawal(env, caller, id);
      }
    }

    /** Every storage entry and every token as they were in `s`. */
    method RollBack(s: State)
      modifies this
      ensures Storage() == s
    {
      admin, config, guardian, peers := s.admin, s.config, s.guardian, s.peers;
      isPaused, pausedAt, unpauseAfter := s.paused, s.pausedAt, s.unpauseAfter;
      leagues, settlementHashes, withdrawals := s.leagues, s.settlementHashes, s.withdrawals;
      pendingUpgrade, ledger := s.upgrade, s.ledger;
    }

    method Snapshot() returns (s: State)
      ensures s == Storage()
    {
      s := State(admin, config, isPaused, pausedAt, unpauseAfter, guardian, peers,
                 leagues, settlementHashes, withdrawals, pendingUpgrade, ledger);
    }

    /** One invocation: on an error the host puts every storage entry and every token back. */
    method Invoke(env: Env, call: Call) returns (r: Result<()>)
      modifies this
      ensures r.Ok? ==> Exec(platform, old(Storage()), env, call) == Ok(Storage())
      ensures r.Err? ==> Exec(platform, old(Storage()), env, call) == Err(r.error) && Storage() == old(Storage())
      ensures events == old(events) + [Called(env, call)] && states == old(states) + [Storage()]
    {
      hide Exec;
      ghost var states0, events0 := states, events;
      var before := Snapshot();
      r := Dispatch(env, call);
      if r.Err? { RollBack(before); }
      states, events := states0 + [Storage()], events0 + [Called(env, call)];
    }

    // ---------- the life of the object ----------

    /** Storage is where a run of the contract has led. */
    ghost predicate Valid()
      reads this
    {
      Run(platform, trees, states, events) && Storage() == states[|events|]
    }

    /**
     A fair invocation continues the run: the books stay balanced, and what succeeds now had been waited
     for as long as it must be.
     */
    method InvokeSafely(env: Env, call: Call, ghost asset: Address) returns (r: Result<()>)
      requires Valid() && Fair(platform, Storage(), trees, Called(env, call)) && NotBehind(events, Called(env, call))
      modifies this
      ensures Valid() && events == old(events) + [Called(env, call)] && states == old(states) + [Storage()]
      ensures r.Ok? <==> Succeeds(platform, old(Storage()), Called(env, call))
      ensures Surplus(platform, Storage(), trees, asset)
              == Surplus(platform, old(Storage()), trees, asset)
                + Stray(platform, old(Storage()), Called(env, call), asset)
      ensures Balance(ledger, asset, platform.self) + Withdrawn(Storage(), asset) >= TotalOwed(Storage(), trees, asset)
      ensures r.Ok? && call.ExecuteWithdrawal? ==>
                exists j :: WithdrawalWaited(platform, states, events, |old(events)|, call.proposal, j)
      ensures r.Ok? && call.DoUpgrade? ==> exists j :: UpgradeWaited(platform, states, events, |old(events)|, j)
      ensures r.Ok? && call.EmergencyRefund? ==>
                exists j, d :: RefundWaited(platform, states, events, |old(events)|, j, d)
    {
      hide Inv, Surplus, Stray, Fair, Exec, Run, WithdrawalWaited, UpgradeWaited, RefundWaited, NotBehind;
      ghost var event, n := Called(env, call), |events|;
      RunStart(platform, trees, states, events);
      RunConserves(platform, trees, states, events, asset, n);
      RunExtends(platform, trees, states, events, event);
      EventConserves(platform, Storage(), trees, event, asset);
      r := Invoke(env, call);
      Solvency(platform, trees, states, events, asset, n + 1);
      if r.Ok? {
        if call.ExecuteWithdrawal? {
          var j := WithdrawalTimelock(platform, trees, states, events, n, call.proposal);
        } else if call.DoUpgrade? {
          var j := UpgradeTimelock(platform, trees, states, events, n);
        } else if call.EmergencyRefund? {
          var j, d := EmergencyRefundNeedsLongPause(platform, trees, states, events, n);
        }
      }
    }

    /** Tokens moved by others between invocations. */
    method TokensMove(after: Ledger)
      requires Valid() && Fair(platform, Storage(), trees, Elsewhere(after))
      modifies this
      ensures Valid() && events == old(events) + [Elsewhere(after)] && Storage() == old(Storage()).(ledger := after)
    {
      hide Run, Fair;
      RunStart(platform, trees, states, events);
      RunExtends(platform, trees, states, events, Elsewhere(after));
      ledger := after;
      states, events := states + [Storage()], events + [Elsewhere(after)];
    }

    /** The object owes exactly what it holds, withdrawals apart, iff it began empty and only tight events followed. */
    lemma ExactlySolvent(asset: Address)
      requires Valid()
      ensures Balance(ledger, asset, platform.self) + Withdrawn(Storage(), asset) == TotalOwed(Storage(), trees, asset)
              <==> Balance(states[0].ledger, asset, platform.self) == 0
                   && forall i :: 0 <= i < |events| ==> Tight(platform, states[i], events[i], asset)
    {
      ExactSolvency(platform, trees, states, events, asset, |events|);
      hide Run, Tight;
    }

    /**
     Outstanding claims on the object can be collected in their order, each in full, iff it holds what they
     are due together; and it does while withdrawals have taken no more than the surplus.
     */
    lemma Payable(asset: Address, envs: seq<Env>, claims: seq<Claim>)
      requires Valid() && AllReady(platform, Storage(), trees, asset, envs, claims)
      ensures (exists after, calls :: AllPaid(platform, Storage(), trees, asset, envs, claims, after, calls))
              <==> SumDue(Storage(), trees, claims) <= Balance(ledger, asset, platform.self)
      ensures Withdrawn(Storage(), asset) <= Balance(states[0].ledger, asset, platform.self)
                                             + StrayIn(platform, states, events, asset, |events|)
              ==> SumDue(Storage(), trees, claims) <= Balance(ledger, asset, platform.self)
    {
      hide AllReady, AllPaid, Run, Inv, Withdrawn, TotalOwed, StrayIn;
      PayableExactly(platform, trees, states, events, asset, |events|, envs, claims);
      RunConserves(platform, trees, states, events, asset, |events|);
      DuesWithinOwed(platform, Storage(), trees, asset, envs, claims);
    }
  }
}
