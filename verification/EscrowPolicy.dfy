/**
 Who may do what, and when. In a state whose books balance and whose holdings cover its obligations, a call
 succeeds exactly when the policy permits it: no payout ever fails for want of tokens or by underflow.
 */
module EscrowPolicy {
  import opened Wrappers
  import opened Host
  import opened Sums
  import opened PrizeSplit
  import opened Commitments
  import opened EscrowModel
  import opened EscrowMoney
  import opened EscrowEffects
  import opened EscrowRuns
  import opened EscrowTimelocks

  // ---------- the policy ----------

  ghost predicate IsAdmin(s: State, env: Env, who: Address) { who in env.auth && s.admin == Some(who) }

  ghost predicate IsSigner(s: State, env: Env, who: Address) {
    who in env.auth && s.config.Some? && who in s.config.value.signers
  }

  ghost predicate Approved(s: State, env: Env, approvals: seq<Address>) {
    s.config.Some? && Quorum(s.config.value, env, approvals)
  }

  /** Neither this contract nor a linked peer is paused. */
  ghost predicate Operational(s: State, env: Env) {
    !s.paused && forall peer :: peer in s.peers ==> peer !in env.pausedPeers
  }

  ghost predicate HasDeposit(p: Partition, who: Address) { who in p.deposits && p.deposits[who] > 0 }

  ghost predicate Open(p: Partition) { p.league.status == Upcoming }

  /** The list is the prize curve for what remains of the deposits after the fee, within the caps. */
  ghost predicate Distributes(p: Partition, a: Settlement) {
    var total, amounts := p.league.totalDeposited, Amounts(a.winners);
    && 0 <= a.cut && 5 * a.cut <= a.fee && 20 * a.fee <= total && total * 500 <= I128_MAX
    && PrizeCurve(total - a.fee, |amounts|, a.bps).Ok?
    && OnCurve(amounts, PrizeCurve(total - a.fee, |amounts|, a.bps).value)
  }

  ghost predicate MaySettle(h: Platform, s: State, env: Env, a: Settlement) {
    && Operational(s, env) && Approved(s, env, a.approvals)
    && (a.hash.Some? ==> a.hash.value == h.sha256(SettlementBytes(a.winners, a.fee)))
    && (a.proof.Some? ==> exists i :: 0 <= i < 32 && a.proof.value[i] != 0)
    && a.id in s.leagues && Open(s.leagues[a.id]) && !s.leagues[a.id].frozen && Distributes(s.leagues[a.id], a)
  }

  ghost predicate MayPause(h: Platform, s: State, env: Env, call: Call)
    requires PauseCall(call)
  {
    match call
    case Pause(admin) => IsAdmin(s, env, admin) && !s.paused
    case Unpause(admin) =>
      IsAdmin(s, env, admin) && s.paused && (s.unpauseAfter.Some? ==> s.unpauseAfter.value <= env.time)
    case MultisigPause(approvals) => Approved(s, env, approvals) && !s.paused
    case MultisigUnpause(approvals) => Approved(s, env, approvals) && s.paused
    case EmergencyPause(guardian) =>
      guardian in env.auth && s.guardian == Some(guardian)
      && forall peer :: peer in s.peers ==> peer !in env.refusingPeers
    case FederatedPause(source) => source in env.auth && source in s.peers
  }

  ghost predicate MaySetUp(h: Platform, s: State, env: Env, call: Call)
    requires Administrative(call) && !PauseCall(call)
  {
    match call
    case Initialize(admin) => s.admin.None? && admin in env.auth
    case InitializeMultisig(signers, threshold) =>
      s.admin.None? && 1 <= threshold <= |signers| <= 32 && forall signer :: signer in signers ==> signer in env.auth
    case SetGuardian(approvals, _) => Approved(s, env, approvals)
    case LinkPeer(approvals, peer) => Approved(s, env, approvals) && peer != h.self
    case ProposeUpgrade(proposer, _) => IsSigner(s, env, proposer) && env.sequence + 34_560 <= U32_MAX
    case DoUpgrade(approvals, wasmHash) =>
      Approved(s, env, approvals) && s.upgrade.Some? && s.upgrade.value.wasmHash == wasmHash
      && s.upgrade.value.unlockLedger <= env.sequence
  }

  ghost predicate MayWithdraw(h: Platform, s: State, env: Env, call: Call)
    requires WithdrawalCall(call)
  {
    IsSigner(s, env, call.caller)
    && match call
       case ProposeWithdrawal(_, id, _, _, amount) =>
         amount > 0 && id !in s.withdrawals && env.sequence + 34_560 <= U32_MAX
       case ApproveWithdrawal(caller, id) =>
         id in s.withdrawals && !s.withdrawals[id].executed && caller !in s.withdrawals[id].approvals
       case ExecuteWithdrawal(_, id) =>
         id in s.withdrawals
         && var w, config := s.withdrawals[id], s.config.value;
            && !w.executed && w.unlockLedger <= env.sequence
            && |w.approvals| >= config.threshold && (|config.signers| >= 2 ==> |w.approvals| >= 2)
            && w.amount <= Balance(s.ledger, w.asset, h.self)
  }

  /** Calls by which tokens enter a league, or its status changes. */
  ghost predicate MayManage(h: Platform, s: State, env: Env, call: Call)
    requires call.CreateLeague? || call.Deposit? || call.CancelLeague? || call.Freeze? || call.Unfreeze?
  {
    match call
    case CreateLeague(creator, id, entryFee, _) => creator in env.auth && entryFee >= 0 && id !in s.leagues
    case Deposit(who, id) =>
      Operational(s, env) && who in env.auth && id in s.leagues
      && var p := s.leagues[id];
         && Open(p) && who !in p.deposits && p.league.entryFee <= Balance(s.ledger, p.league.asset, who)
         && p.league.totalDeposited + p.league.entryFee <= I128_MAX && p.league.participantCount < U32_MAX
    case CancelLeague(caller, id) =>
      caller in env.auth && id in s.leagues && s.leagues[id].league.status != Settled && s.admin.Some?
      && (caller == s.admin.value || caller == s.leagues[id].league.creator)
    case Freeze(admin, id) => IsAdmin(s, env, admin) && id in s.leagues && Open(s.leagues[id])
    case Unfreeze(admin, _) => IsAdmin(s, env, admin)
  }

  /** Calls by which tokens leave a league. */
  ghost predicate MayPayOut(h: Platform, s: State, env: Env, call: Call)
    requires LeagueCall(call)
    requires !call.CreateLeague? && !call.Deposit? && !call.CancelLeague? && !call.Freeze? && !call.Unfreeze?
  {
    match call
    case Settle(a) => MaySettle(h, s, env, a)
    case ResolvePayout(admin, id, winners, treasury, fee) =>
      IsAdmin(s, env, admin) && MaySettle(h, Thaw(s, id), env, PlainSettlement(admin, id, winners, treasury, fee))
    case SettleMerkle(admin, id, _, pool, _, fee) =>
      IsAdmin(s, env, admin) && !s.paused && id in s.leagues && Open(s.leagues[id]) && !s.leagues[id].frozen
      && var total := s.leagues[id].league.totalDeposited;
         0 <= fee && 20 * fee <= total && total * 500 <= I128_MAX && 0 <= pool && pool + fee == total
    case EmergencyRefund(who, id) =>
      who in env.auth && s.paused && s.pausedAt.Some? && s.pausedAt.value + 1_209_600 <= env.time && id in s.leagues
      && s.leagues[id].league.status != Settled && !s.leagues[id].frozen && HasDeposit(s.leagues[id], who)
    case RefundDeposit(admin, id, who) =>
      IsAdmin(s, env, admin) && id in s.leagues && s.leagues[id].league.status != Settled
      && HasDeposit(s.leagues[id], who)
    case Refund(admin, id, _) => IsAdmin(s, env, admin) && id in s.leagues && s.leagues[id].league.status != Settled
    case ResolveRefund(admin, id, _) =>
      IsAdmin(s, env, admin) && id in s.leagues && s.leagues[id].league.status != Settled
    case ClaimRefund(who, id) =>
      who in env.auth && id in s.leagues && s.leagues[id].league.status == Cancelled && HasDeposit(s.leagues[id], who)
    case ClaimPrize(who, id) =>
      Operational(s, env) && who in env.auth && id in s.leagues && who in s.leagues[id].claimable
    case ClaimMerkle(id, prize, branch) =>
      prize.winner in env.auth && prize.amount > 0 && id in s.leagues && s.leagues[id].root.Some?
      && prize.winner !in s.leagues[id].claimed && BranchRoot(h.sha256, id, prize, branch) == s.leagues[id].root.value
  }

  ghost predicate Permitted(h: Platform, s: State, env: Env, call: Call) {
    if PauseCall(call) then MayPause(h, s, env, call)
    else if Administrative(call) then MaySetUp(h, s, env, call)
    else if WithdrawalCall(call) then MayWithdraw(h, s, env, call)
    else if call.CreateLeague? || call.Deposit? || call.CancelLeague? || call.Freeze? || call.Unfreeze?
    then MayManage(h, s, env, call)
    else MayPayOut(h, s, env, call)
  }

  // ---------- administration ----------

  lemma GuardsMean(s: State, env: Env, who: Address, approvals: seq<Address>)
    ensures RequireAdmin(s, env, who).Pass? <==> IsAdmin(s, env, who)
    ensures RequireSigner(s, env, who).Pass? <==> IsSigner(s, env, who)
    ensures AuthorizeSigners(s, env, approvals).Pass? <==> Approved(s, env, approvals)
    ensures EnsureOperational(s, env).Pass? <==> Operational(s, env)
  {
    QuorumExactly(s, env, approvals);
    hide AuthorizeSigners, Quorum;
  }

  lemma AdminPausePermitted(h: Platform, s: State, env: Env, call: Call)
    requires call.Pause? || call.Unpause?
    ensures Exec(h, s, env, call).Ok? <==> MayPause(h, s, env, call)
  {
    GuardsMean(s, env, call.admin, []);
    hide RequireAdmin, IsAdmin;
  }

  lemma QuorumPausePermitted(h: Platform, s: State, env: Env, call: Call)
    requires call.MultisigPause? || call.MultisigUnpause?
    ensures Exec(h, s, env, call).Ok? <==> MayPause(h, s, env, call)
  {
    GuardsMean(s, env, h.self, call.approvals);
    hide AuthorizeSigners, Approved;
  }

  lemma PausePermitted(h: Platform, s: State, env: Env, call: Call)
    requires PauseCall(call)
    ensures Exec(h, s, env, call).Ok? <==> MayPause(h, s, env, call)
  {
    if call.EmergencyPause? || call.FederatedPause? {
    } else {
      hide Exec, MayPause;
      if call.Pause? || call.Unpause? {
        AdminPausePermitted(h, s, env, call);
      } else {
        QuorumPausePermitted(h, s, env, call);
      }
    }
  }

  lemma QuorumCallPermitted(h: Platform, s: State, env: Env, call: Call)
    requires call.SetGuardian? || call.LinkPeer? || call.DoUpgrade?
    ensures Exec(h, s, env, call).Ok? <==> MaySetUp(h, s, env, call)
  {
    GuardsMean(s, env, h.self, call.approvals);
    hide AuthorizeSigners, Approved;
  }

  lemma ProposePermitted(h: Platform, s: State, env: Env, call: Call)
    requires call.ProposeUpgrade?
    ensures Exec(h, s, env, call).Ok? <==> MaySetUp(h, s, env, call)
  {
    GuardsMean(s, env, call.proposer, []);
    hide RequireSigner, IsSigner;
  }

  lemma SetUpPermitted(h: Platform, s: State, env: Env, call: Call)
    requires Administrative(call) && !PauseCall(call)
    ensures Exec(h, s, env, call).Ok? <==> MaySetUp(h, s, env, call)
  {
    if call.Initialize? || call.InitializeMultisig? {
    } else {
      hide Exec, MaySetUp;
      if call.ProposeUpgrade? { ProposePermitted(h, s, env, call); } else { QuorumCallPermitted(h, s, env, call); }
    }
  }

  lemma WithdrawPermitted(h: Platform, s: State, env: Env, call: Call)
    requires WithdrawalCall(call) && forall id: U64 :: id in s.withdrawals ==> s.withdrawals[id].amount > 0
    ensures Exec(h, s, env, call).Ok? <==> MayWithdraw(h, s, env, call)
  {
    GuardsMean(s, env, call.caller, []);
    hide RequireSigner, Balance;
  }

  lemma DepositPermitted(h: Platform, s: State, trees: Trees, env: Env, who: Address, id: U64)
    requires Inv(h, s, trees)
    ensures DoDeposit(h, s, env, who, id).Ok? <==> MayManage(h, s, env, Call.Deposit(who, id))
  {
    GuardsMean(s, env, who, []);
    if id in s.leagues { LeagueRange(h, id, s.leagues[id], trees(id)); }
    hide Inv, EnsureOperational, Operational, Balance;
  }

  lemma LeagueRange(h: Platform, id: U64, p: Partition, t: Tree)
    requires PartitionOk(h, id, p, t)
    ensures p.league.status != Active && p.league.entryFee >= 0
    ensures 0 <= p.league.totalDeposited <= I128_MAX && 0 <= p.league.participantCount <= U32_MAX
  {
    TotalNotNegative(h, id, p, t);
  }

  lemma RangeOf(h: Platform, s: State, trees: Trees, id: U64)
    requires Inv(h, s, trees) && id in s.leagues
    ensures s.leagues[id].league.status != Active
  {
    LeagueRange(h, id, s.leagues[id], trees(id));
  }

  lemma FreezePermitted(h: Platform, s: State, trees: Trees, env: Env, call: Call)
    requires (call.Freeze? || call.Unfreeze?) && Inv(h, s, trees)
    ensures Exec(h, s, env, call).Ok? <==> MayManage(h, s, env, call)
  {
    hide Inv, RequireAdmin, IsAdmin, Thaw;
    GuardsMean(s, env, call.admin, []);
    if call.id in s.leagues { RangeOf(h, s, trees, call.id); }
  }

  lemma ManagePermitted(h: Platform, s: State, trees: Trees, env: Env, call: Call)
    requires call.CreateLeague? || call.Deposit? || call.CancelLeague? || call.Freeze? || call.Unfreeze?
    requires Inv(h, s, trees)
    ensures Exec(h, s, env, call).Ok? <==> MayManage(h, s, env, call)
  {
    hide Inv;
    if call.Deposit? {
      hide DoDeposit, MayManage;
      DepositPermitted(h, s, trees, env, call.who, call.id);
    } else if call.Freeze? || call.Unfreeze? {
      hide Exec, MayManage;
      FreezePermitted(h, s, trees, env, call);
    }
  }

  // ---------- payouts ----------

  /** Holdings cover obligations, asset by asset. */
  ghost predicate Covered(h: Platform, s: State, trees: Trees) {
    forall asset :: TotalOwed(s, trees, asset) <= Balance(s.ledger, asset, h.self)
  }

  /** What one league owes is there. */
  lemma LeagueCovered(h: Platform, s: State, trees: Trees, id: U64)
    requires Inv(h, s, trees) && Covered(h, s, trees) && id in s.leagues
    ensures 0 <= Owed(s.leagues[id], trees(id)) <= Balance(s.ledger, s.leagues[id].league.asset, h.self)
  {
    hide PartitionOk, Owed;
    var asset := s.leagues[id].league.asset;
    var owed: map<U64, int> := OwedByLeague(s.leagues, trees, asset);
    forall i: U64 | i in owed ensures owed[i] >= 0 {
      assert PartitionOk(h, i, s.leagues[i], trees(i));
      OwedNotNegative(h, i, s.leagues[i], trees(i));
    }
    SumNonNegative(owed);
    assert id in owed;
    assert TotalOwed(s, trees, asset) <= Balance(s.ledger, asset, h.self);
  }

  lemma OwedNotNegative(h: Platform, id: U64, p: Partition, t: Tree)
    requires PartitionOk(h, id, p, t)
    ensures Owed(p, t) >= 0
  {
    SumNonNegative(p.deposits);
    SumNonNegative(p.claimable);
    if p.root.Some? { SumNonNegative(Unclaimed(t, p.claimed)); }
  }

  lemma {:induction false} RefundEachWorks(h: Platform, ledger: Ledger, asset: Address, deposits: map<Address, int>,
                                           participants: seq<Address>)
    requires h.self !in deposits && forall w :: w in deposits ==> deposits[w] >= 0
    requires Sum(deposits) <= Balance(ledger, asset, h.self)
    ensures RefundEach(h, ledger, asset, deposits, participants).Ok?
    decreases |participants|
  {
    if participants != [] {
      var who, rest := participants[0], participants[1..];
      if who !in deposits {
        RefundEachWorks(h, ledger, asset, deposits, rest);
      } else {
        SumSplit(deposits, who);
        SumNonNegative(deposits - {who});
        var paid := if deposits[who] > 0 then Transfer(ledger, asset, h.self, who, deposits[who]).value else ledger;
        RefundEachWorks(h, paid, asset, deposits - {who}, rest);
      }
    }
  }

  /** One deposit, and all of them, are covered. */
  lemma DepositsCovered(h: Platform, s: State, trees: Trees, id: U64)
    requires Inv(h, s, trees) && Covered(h, s, trees) && id in s.leagues && s.leagues[id].league.status != Settled
    ensures var p := s.leagues[id];
            && Sum(p.deposits) <= Balance(s.ledger, p.league.asset, h.self)
            && h.self !in p.deposits
            && (forall who :: who in p.deposits ==>
                  0 <= p.deposits[who] <= Balance(s.ledger, p.league.asset, h.self)
                  && p.deposits[who] <= p.league.totalDeposited && p.league.participantCount >= 1)
            && 0 <= p.league.totalDeposited <= I128_MAX && p.league.participantCount <= U32_MAX
  {
    var p := s.leagues[id];
    LeagueCovered(h, s, trees, id);
    assert PartitionOk(h, id, p, trees(id));
    SumNonNegative(p.deposits);
    TotalNotNegative(h, id, p, trees(id));
    forall who | who in p.deposits ensures p.league.participantCount >= 1 {
      ReturnedPartition(h, id, p, trees(id), who);
    }
  }

  lemma ReturnWorks(h: Platform, s: State, trees: Trees, id: U64, who: Address)
    requires Inv(h, s, trees) && Covered(h, s, trees) && id in s.leagues && s.leagues[id].league.status != Settled
    requires who in s.leagues[id].deposits
    ensures ReturnDeposit(h, s, id, who, s.leagues[id].deposits[who]).Ok?
  {
    DepositsCovered(h, s, trees, id);
    hide Inv, Covered, Balance, Sum;
  }

  /** The guards alone, whatever the refund itself does. */
  lemma EmergencyGuarded(h: Platform, s: State, env: Env, who: Address, id: U64)
    ensures DoEmergencyRefund(h, s, env, who, id).Ok?
            <==> MayPayOut(h, s, env, EmergencyRefund(who, id))
                 && ReturnDeposit(h, s, id, who, s.leagues[id].deposits[who]).Ok?
  {
    hide ReturnDeposit;
  }

  lemma EmergencyPermitted(h: Platform, s: State, trees: Trees, env: Env, who: Address, id: U64)
    requires Inv(h, s, trees) && Covered(h, s, trees)
    ensures DoEmergencyRefund(h, s, env, who, id).Ok? <==> MayPayOut(h, s, env, EmergencyRefund(who, id))
  {
    hide Inv, Covered, ReturnDeposit, DoEmergencyRefund;
    EmergencyGuarded(h, s, env, who, id);
    if id in s.leagues && s.leagues[id].league.status != Settled && who in s.leagues[id].deposits {
      ReturnWorks(h, s, trees, id, who);
    }
  }

  lemma RefundDepositPermitted(h: Platform, s: State, trees: Trees, env: Env, admin: Address, id: U64, who: Address)
    requires Inv(h, s, trees) && Covered(h, s, trees)
    ensures DoRefundDeposit(h, s, env, admin, id, who).Ok? <==> MayPayOut(h, s, env, RefundDeposit(admin, id, who))
  {
    GuardsMean(s, env, admin, []);
    if id in s.leagues && s.leagues[id].league.status != Settled && who in s.leagues[id].deposits {
      ReturnWorks(h, s, trees, id, who);
    }
    hide Inv, Covered, ReturnDeposit, RequireAdmin, IsAdmin;
  }

  lemma ReturnPermitted(h: Platform, s: State, trees: Trees, env: Env, call: Call)
    requires Inv(h, s, trees) && Covered(h, s, trees) && (call.EmergencyRefund? || call.RefundDeposit?)
    ensures Exec(h, s, env, call).Ok? <==> MayPayOut(h, s, env, call)
  {
    hide Inv, Covered, DoEmergencyRefund, DoRefundDeposit, MayPayOut;
    match call
    case EmergencyRefund(who, id) => EmergencyPermitted(h, s, trees, env, who, id);
    case RefundDeposit(admin, id, who) => RefundDepositPermitted(h, s, trees, env, admin, id, who);
  }

  lemma ClaimRefundPermitted(h: Platform, s: State, trees: Trees, env: Env, call: Call)
    requires Inv(h, s, trees) && Covered(h, s, trees) && call.ClaimRefund?
    ensures Exec(h, s, env, call).Ok? <==> MayPayOut(h, s, env, call)
  {
    if call.id in s.leagues && s.leagues[call.id].league.status != Settled { DepositsCovered(h, s, trees, call.id); }
    hide Inv, Covered, Balance, Sum;
  }

  lemma RefundPermitted(h: Platform, s: State, trees: Trees, env: Env, admin: Address, id: U64, ps: seq<Address>)
    requires Inv(h, s, trees) && Covered(h, s, trees)
    ensures DoRefund(h, s, env, admin, id, ps).Ok?
            <==> IsAdmin(s, env, admin) && id in s.leagues && s.leagues[id].league.status != Settled
  {
    GuardsMean(s, env, admin, []);
    if id in s.leagues && s.leagues[id].league.status != Settled {
      DepositsCovered(h, s, trees, id);
      RefundEachWorks(h, s.ledger, s.leagues[id].league.asset, s.leagues[id].deposits, ps);
    }
    hide Inv, Covered, RequireAdmin, IsAdmin, RefundEach, Balance, Sum;
  }

  /** Thawing changes neither what is owed nor who is who. */
  lemma ThawCovered(h: Platform, s: State, trees: Trees, env: Env, admin: Address, id: U64)
    requires Inv(h, s, trees) && Covered(h, s, trees)
    ensures var s' := Thaw(s, id);
            && Inv(h, s', trees) && Covered(h, s', trees) && (IsAdmin(s', env, admin) <==> IsAdmin(s, env, admin))
            && (id in s'.leagues <==> id in s.leagues)
            && (id in s.leagues ==> s'.leagues[id].league == s.leagues[id].league && !s'.leagues[id].frozen)
  {
    forall asset ensures TotalOwed(Thaw(s, id), trees, asset) == TotalOwed(s, trees, asset) {
      ThawKeeps(h, s, trees, id, asset);
      assert Thaw(s, id).withdrawals == s.withdrawals && Thaw(s, id).ledger == s.ledger;
      hide Thaw, TotalOwed, Inv;
    }
    ThawKeeps(h, s, trees, id, admin);
    hide Inv, TotalOwed, Surplus;
  }

  lemma ListRefundPermitted(h: Platform, s: State, trees: Trees, env: Env, call: Call)
    requires Inv(h, s, trees) && Covered(h, s, trees) && (call.Refund? || call.ResolveRefund?)
    ensures Exec(h, s, env, call).Ok? <==> MayPayOut(h, s, env, call)
  {
    GuardsMean(s, env, call.admin, []);
    hide Inv, Covered, DoRefund, RequireAdmin, IsAdmin, Thaw;
    if call.Refund? {
      RefundPermitted(h, s, trees, env, call.admin, call.id, call.participants);
    } else {
      ThawCovered(h, s, trees, env, call.admin, call.id);
      RefundPermitted(h, Thaw(s, call.id), trees, env, call.admin, call.id, call.participants);
    }
  }

  lemma PrizePermitted(h: Platform, s: State, trees: Trees, env: Env, call: Call)
    requires Inv(h, s, trees) && Covered(h, s, trees) && call.ClaimPrize?
    ensures Exec(h, s, env, call).Ok? <==> MayPayOut(h, s, env, call)
  {
    GuardsMean(s, env, call.who, []);
    if call.id in s.leagues && call.who in s.leagues[call.id].claimable {
      var p := s.leagues[call.id];
      LeagueCovered(h, s, trees, call.id);
      assert PartitionOk(h, call.id, p, trees(call.id));
      SumNonNegative(p.claimable);
      assert p.claimable[call.who] <= Balance(s.ledger, p.league.asset, h.self) && !p.frozen;
    }
    hide Inv, Covered, PartitionOk, EnsureOperational, Operational, Balance;
  }

  lemma BranchPermitted(h: Platform, s: State, trees: Trees, env: Env, call: Call)
    requires Inv(h, s, trees) && Covered(h, s, trees) && call.ClaimMerkle?
    requires NoCollision(h.sha256, ClaimInputs(h.sha256, call.id, call.prize, call.branch),
                         TreeInputs(h.sha256, call.id, trees(call.id)))
    ensures Exec(h, s, env, call).Ok? <==> MayPayOut(h, s, env, call)
  {
    if call.id in s.leagues && s.leagues[call.id].root.Some? && call.prize.winner !in s.leagues[call.id].claimed
       && BranchRoot(h.sha256, call.id, call.prize, call.branch) == s.leagues[call.id].root.value
    {
      BranchAffordable(h, s, trees, call);
    }
    hide Inv, Covered, PartitionOk, BranchRoot, Balance, NoCollision;
  }

  /** A prize still unclaimed is part of what its league owes. */
  lemma UnclaimedIsOwed(h: Platform, id: U64, p: Partition, t: Tree, who: Address)
    requires PartitionOk(h, id, p, t) && p.root.Some? && who in Unclaimed(t, p.claimed)
    ensures Unclaimed(t, p.claimed)[who] <= Owed(p, t) && p.league.status == Settled && !p.frozen
  {
    SumNonNegative(Unclaimed(t, p.claimed));
    SumNonNegative(p.claimable);
    hide Sum, Root;
  }

  lemma BranchUnclaimed(h: Platform, id: U64, p: Partition, t: Tree, prize: WinnerPayout, branch: seq<Hash>)
    requires PartitionOk(h, id, p, t) && p.root.Some? && prize.winner !in p.claimed
    requires BranchRoot(h.sha256, id, prize, branch) == p.root.value
    requires NoCollision(h.sha256, ClaimInputs(h.sha256, id, prize, branch), TreeInputs(h.sha256, id, t))
    ensures prize.winner in Unclaimed(t, p.claimed) && Unclaimed(t, p.claimed)[prize.winner] == prize.amount
  {
    hide BranchRoot, NoCollision, ClaimInputs, TreeInputs, Sum;
    BranchSound(h.sha256, id, prize, branch, t);
    CommittedIsEntitled(t, prize);
    hide Root;
  }

  lemma BranchAffordable(h: Platform, s: State, trees: Trees, call: Call)
    requires Inv(h, s, trees) && Covered(h, s, trees) && call.ClaimMerkle? && call.id in s.leagues
    requires NoCollision(h.sha256, ClaimInputs(h.sha256, call.id, call.prize, call.branch),
                         TreeInputs(h.sha256, call.id, trees(call.id)))
    requires var p := s.leagues[call.id];
             && p.root.Some? && call.prize.winner !in p.claimed
             && BranchRoot(h.sha256, call.id, call.prize, call.branch) == p.root.value
    ensures var p := s.leagues[call.id];
            && p.league.status == Settled && !p.frozen
            && call.prize.amount <= Balance(s.ledger, p.league.asset, h.self)
  {
    LeagueCovered(h, s, trees, call.id);
    assert PartitionOk(h, call.id, s.leagues[call.id], trees(call.id));
    hide Inv, Covered, PartitionOk, BranchRoot, NoCollision, Unclaimed, Owed, Balance;
    BranchUnclaimed(h, call.id, s.leagues[call.id], trees(call.id), call.prize, call.branch);
    UnclaimedIsOwed(h, call.id, s.leagues[call.id], trees(call.id), call.prize.winner);
  }

  // ---------- settlements ----------

  lemma PayFeesWorks(h: Platform, ledger: Ledger, asset: Address, a: Settlement)
    requires 0 <= a.cut <= a.fee <= Balance(ledger, asset, h.self)
    ensures PayFees(h, ledger, asset, a).Ok?
  {}

  lemma VerdictIff(total: nat, fee: nat, amounts: seq<int>, bps: Option<seq<U32>>)
    requires fee <= total
    ensures Verdict(total, fee, amounts, bps).Ok?
            <==> PrizeCurve(total - fee, |amounts|, bps).Ok?
                 && OnCurve(amounts, PrizeCurve(total - fee, |amounts|, bps).value)
  {
    hide PrizeCurve, MatchFrom, OnCurve, Total;
    if PrizeCurve(total - fee, |amounts|, bps).Ok? { AcceptedIff(total - fee, amounts, bps); }
  }

  /** The arithmetic of the settlement says just what the policy says. */
  lemma DistributesIff(p: Partition, a: Settlement)
    requires p.league.totalDeposited >= 0
    ensures var total, amounts := p.league.totalDeposited, Amounts(a.winners);
            Distributes(p, a) <==> CheckFees(total, a.fee, a.cut).Ok? && CheckWinners(total, a.fee, amounts, a.bps).Ok?
    ensures Distributes(p, a) ==>
              CheckWinners(p.league.totalDeposited, a.fee, Amounts(a.winners), a.bps) == Ok(p.league.totalDeposited)
  {
    hide CheckFees, CheckWinners, PrizeCurve, OnCurve, Verdict, Total, Amounts;
    var total, amounts := p.league.totalDeposited, Amounts(a.winners);
    FeeCaps(total, a.fee, a.cut);
    if CheckFees(total, a.fee, a.cut).Ok? {
      WinnersInRange(total, a.fee, amounts, a.bps);
      VerdictIff(total, a.fee, amounts, a.bps);
      if CheckWinners(total, a.fee, amounts, a.bps).Ok? { SettlementFacts(total, a); }
    }
  }

  /** What the state of the league contributes. */
  lemma ListFacts(h: Platform, s: State, trees: Trees, a: Settlement)
    requires Inv(h, s, trees) && Covered(h, s, trees) && a.id in s.leagues
    ensures var p := s.leagues[a.id];
            var total, amounts := p.league.totalDeposited, Amounts(a.winners);
            && total >= 0 && (Open(p) <==> !p.Closed())
            && (Distributes(p, a)
                <==> CheckFees(total, a.fee, a.cut).Ok? && CheckWinners(total, a.fee, amounts, a.bps).Ok?)
            && (Distributes(p, a) ==> CheckWinners(total, a.fee, amounts, a.bps) == Ok(total))
            && (Distributes(p, a) && Open(p) ==> PayFees(h, s.ledger, p.league.asset, a).Ok?)
  {
    LeagueRange(h, a.id, s.leagues[a.id], trees(a.id));
    DistributesIff(s.leagues[a.id], a);
    if Open(s.leagues[a.id]) && Distributes(s.leagues[a.id], a) {
      OpenTotal(h, s, trees, a.id);
      DepositsCovered(h, s, trees, a.id);
      PayFeesWorks(h, s.ledger, s.leagues[a.id].league.asset, a);
    }
    hide Inv, Covered, PartitionOk, CheckFees, CheckWinners, PayFees, Balance, Sum;
  }

  lemma ListPermitted(h: Platform, s: State, trees: Trees, env: Env, a: Settlement)
    requires Inv(h, s, trees) && Covered(h, s, trees)
    ensures DoSettle(h, s, env, a).Ok? <==> MaySettle(h, s, env, a)
  {
    hide Inv, Covered, EnsureOperational, Operational, AuthorizeSigners, Approved, Distributes, CheckFees,
      CheckWinners, PayFees, RecordPrizes, SettlementBytes, AllZero;
    GuardsMean(s, env, h.self, a.approvals);
    if a.id in s.leagues { ListFacts(h, s, trees, a); }
    ProofMeans(a);
  }

  lemma ProofMeans(a: Settlement)
    ensures a.proof.Some? ==> (!AllZero(a.proof.value) <==> exists i :: 0 <= i < 32 && a.proof.value[i] != 0)
  {}

  lemma RootPermitted(h: Platform, s: State, trees: Trees, env: Env, call: Call)
    requires Inv(h, s, trees) && Covered(h, s, trees) && call.SettleMerkle?
    ensures Exec(h, s, env, call).Ok? <==> MayPayOut(h, s, env, call)
  {
    hide Inv, Covered, RequireAdmin, IsAdmin, Sum, Balance;
    GuardsMean(s, env, call.admin, []);
    if call.id in s.leagues { RootFacts(h, s, trees, call.id); }
  }

  lemma RootFacts(h: Platform, s: State, trees: Trees, id: U64)
    requires Inv(h, s, trees) && Covered(h, s, trees) && id in s.leagues
    ensures var p := s.leagues[id];
            && 0 <= p.league.totalDeposited <= I128_MAX && (Open(p) <==> !p.Closed())
            && (Open(p) ==> p.league.totalDeposited <= Balance(s.ledger, p.league.asset, h.self))
  {
    LeagueRange(h, id, s.leagues[id], trees(id));
    OpenTotal(h, s, trees, id);
    if Open(s.leagues[id]) { DepositsCovered(h, s, trees, id); }
  }

  lemma SettlementPermitted(h: Platform, s: State, trees: Trees, env: Env, call: Call)
    requires Inv(h, s, trees) && Covered(h, s, trees) && (call.Settle? || call.ResolvePayout?)
    ensures Exec(h, s, env, call).Ok? <==> MayPayOut(h, s, env, call)
  {
    hide Inv, Covered, DoSettle, MaySettle, Thaw, RequireAdmin, IsAdmin;
    if call.Settle? {
      ListPermitted(h, s, trees, env, call.settlement);
    } else {
      GuardsMean(s, env, call.admin, []);
      ThawCovered(h, s, trees, env, call.admin, call.id);
      ListPermitted(h, Thaw(s, call.id), trees, env,
                    PlainSettlement(call.admin, call.id, call.winners, call.treasury, call.fee));
    }
  }

  // ---------- all of them ----------

  /** A call succeeds exactly when it is permitted. */
  lemma SucceedsIffPermitted(h: Platform, s: State, trees: Trees, env: Env, call: Call)
    requires Inv(h, s, trees) && Covered(h, s, trees)
    requires call.ClaimMerkle? ==> NoCollision(h.sha256, ClaimInputs(h.sha256, call.id, call.prize, call.branch),
                                               TreeInputs(h.sha256, call.id, trees(call.id)))
    ensures Exec(h, s, env, call).Ok? <==> Permitted(h, s, env, call)
  {
    if WithdrawalCall(call) { WithdrawPermitted(h, s, env, call); }
    hide Exec, Inv, Covered, NoCollision, MayPause, MaySetUp, MayWithdraw, MayManage, MayPayOut;
    if PauseCall(call) {
      PausePermitted(h, s, env, call);
    } else if Administrative(call) {
      SetUpPermitted(h, s, env, call);
    } else if WithdrawalCall(call) {
    } else if call.CreateLeague? || call.Deposit? || call.CancelLeague? || call.Freeze? || call.Unfreeze? {
      ManagePermitted(h, s, trees, env, call);
    } else if call.Settle? || call.ResolvePayout? {
      SettlementPermitted(h, s, trees, env, call);
    } else if call.SettleMerkle? {
      RootPermitted(h, s, trees, env, call);
    } else if call.Refund? || call.ResolveRefund? {
      ListRefundPermitted(h, s, trees, env, call);
    } else if call.EmergencyRefund? || call.RefundDeposit? {
      ReturnPermitted(h, s, trees, env, call);
    } else if call.ClaimRefund? {
      ClaimRefundPermitted(h, s, trees, env, call);
    } else if call.ClaimPrize? {
      PrizePermitted(h, s, trees, env, call);
    } else {
      BranchPermitted(h, s, trees, env, call);
    }
  }

  /** Along a run that is so in every state in which withdrawals have taken no more than the surplus. */
  lemma RunPermits(h: Platform, trees: Trees, states: seq<State>, events: seq<Event>, n: nat, env: Env, call: Call)
    requires Run(h, trees, states, events) && n <= |events|
    requires forall asset :: Withdrawn(states[n], asset)
                             <= Balance(states[0].ledger, asset, h.self) + StrayIn(h, states, events, asset, n)
    requires call.ClaimMerkle? ==> NoCollision(h.sha256, ClaimInputs(h.sha256, call.id, call.prize, call.branch),
                                               TreeInputs(h.sha256, call.id, trees(call.id)))
    ensures Exec(h, states[n], env, call).Ok? <==> Permitted(h, states[n], env, call)
  {
    hide Run, Inv, Withdrawn, TotalOwed, StrayIn, Exec, Permitted, NoCollision;
    RunStart(h, trees, states, events);
    RunConserves(h, trees, states, events, h.self, n);
    forall asset ensures TotalOwed(states[n], trees, asset) <= Balance(states[n].ledger, asset, h.self) {
      RunConserves(h, trees, states, events, asset, n);
    }
    SucceedsIffPermitted(h, states[n], trees, env, call);
  }

  // ---------- where the settings come from ----------

  predicate Configures(h: Platform, s: State, event: Event) {
    Succeeds(h, s, event) && (event.call.Initialize? || event.call.InitializeMultisig?)
  }

  function ConfigOf(call: Call): AdminConfig
    requires call.Initialize? || call.InitializeMultisig?
  {
    if call.Initialize? then AdminConfig([call.admin], 1) else AdminConfig(call.signers, call.threshold)
  }

  predicate Links(h: Platform, s: State, event: Event, peer: Address) {
    Succeeds(h, s, event) && event.call.LinkPeer? && event.call.peer == peer
  }

  predicate Appoints(h: Platform, s: State, event: Event) {
    Succeeds(h, s, event) && event.call.SetGuardian?
  }

  /** One event and the settings: initialisation sets the signers, a quorum the guardian and one more peer. */
  lemma SettingsStep(h: Platform, s: State, event: Event)
    ensures var s' := Apply(h, s, event);
            && (Configures(h, s, event) ==>
                  s.admin.None? && s'.config == Some(ConfigOf(event.call))
                  && s'.admin == Some(ConfigOf(event.call).signers[0])
                  && forall signer :: signer in ConfigOf(event.call).signers ==> signer in event.env.auth)
            && (!Configures(h, s, event) ==> s'.config == s.config && s'.admin == s.admin)
            && (Appoints(h, s, event) ==> Approved(s, event.env, event.call.approvals))
            && s'.guardian == (if Appoints(h, s, event) then Some(event.call.guardian) else s.guardian)
            && (Succeeds(h, s, event) && event.call.LinkPeer? ==>
                  Approved(s, event.env, event.call.approvals) && event.call.peer != h.self)
            && s'.peers == (if Succeeds(h, s, event) && event.call.LinkPeer? && event.call.peer !in s.peers
                            then s.peers + [event.call.peer] else s.peers)
  {
    if Succeeds(h, s, event) && Administrative(event.call) && !PauseCall(event.call) {
      var Called(env, call) := event;
      if call.SetGuardian? || call.LinkPeer? { GuardsMean(s, env, h.self, call.approvals); }
      hide Exec, AuthorizeSigners, Approved;
      SetupCallFrame(h, s, env, call);
    } else {
      hide Exec;
      SettingsKept(h, s, event);
    }
  }

  lemma SettingsKept(h: Platform, s: State, event: Event)
    requires !(Succeeds(h, s, event) && Administrative(event.call) && !PauseCall(event.call))
    ensures var s' := Apply(h, s, event);
            s'.config == s.config && s'.admin == s.admin && s'.guardian == s.guardian && s'.peers == s.peers
  {
    if Succeeds(h, s, event) {
      var Called(env, call) := event;
      hide Exec, Transfer, RequiredApprovals, Suits, Changed;
      if PauseCall(call) {
        PauseCallFrame(h, s, env, call);
      } else if WithdrawalCall(call) {
        WithdrawalCallFrame(h, s, env, call);
      } else {
        LeagueEffect(h, s, env, call);
      }
    }
  }

  /** The signers are those of the one successful initialisation, and the admin is the first of them. */
  lemma {:induction false} ConfigOrigin(h: Platform, trees: Trees, states: seq<State>, events: seq<Event>, n: nat)
    returns (j: nat)
    requires Run(h, trees, states, events) && n <= |events| && states[n].config.Some?
    ensures j < n && Configures(h, states[j], events[j]) && states[n].config == Some(ConfigOf(events[j].call))
    ensures states[n].admin == Some(ConfigOf(events[j].call).signers[0])
    ensures forall signer :: signer in ConfigOf(events[j].call).signers ==> signer in events[j].env.auth
  {
    hide Run, Inv, Apply, Fair, Configures, Approved, ConfigOf;
    RunStart(h, trees, states, events);
    assert n > 0;
    RunStep(h, trees, states, events, n - 1);
    SettingsStep(h, states[n - 1], events[n - 1]);
    if Configures(h, states[n - 1], events[n - 1]) {
      j := n - 1;
    } else {
      j := ConfigOrigin(h, trees, states, events, n - 1);
    }
  }

  /** The guardian is the last one a quorum appointed. */
  lemma {:induction false} GuardianOrigin(h: Platform, trees: Trees, states: seq<State>, events: seq<Event>, n: nat)
    returns (j: nat)
    requires Run(h, trees, states, events) && n <= |events| && states[n].guardian.Some?
    ensures j < n && Appoints(h, states[j], events[j]) && states[n].guardian == Some(events[j].call.guardian)
    ensures Approved(states[j], events[j].env, events[j].call.approvals)
    ensures forall k :: j < k < n ==> !Appoints(h, states[k], events[k])
  {
    hide Run, Inv, Apply, Fair, Appoints, Approved;
    RunStart(h, trees, states, events);
    assert n > 0;
    RunStep(h, trees, states, events, n - 1);
    SettingsStep(h, states[n - 1], events[n - 1]);
    if Appoints(h, states[n - 1], events[n - 1]) {
      j := n - 1;
    } else {
      j := GuardianOrigin(h, trees, states, events, n - 1);
    }
  }

  ghost predicate EverLinked(h: Platform, states: seq<State>, events: seq<Event>, n: nat, peer: Address)
    requires n <= |events| < |states|
  {
    exists k :: 0 <= k < n && Links(h, states[k], events[k], peer)
  }

  lemma LinkedNext(h: Platform, states: seq<State>, events: seq<Event>, n: nat, peer: Address)
    requires 0 < n <= |events| < |states|
    ensures EverLinked(h, states, events, n, peer)
            <==> EverLinked(h, states, events, n - 1, peer) || Links(h, states[n - 1], events[n - 1], peer)
  {
    hide Links;
  }

  /** The peers are exactly those that a quorum has linked, each once, and never the contract itself. */
  lemma {:induction false} PeersExactly(h: Platform, trees: Trees, states: seq<State>, events: seq<Event>, n: nat)
    requires Run(h, trees, states, events) && n <= |events|
    ensures forall peer :: peer in states[n].peers <==> EverLinked(h, states, events, n, peer)
    ensures Distinct(states[n].peers) && h.self !in states[n].peers
  {
    hide Run, Inv, Apply, Fair, Approved, Links, Exec;
    RunStart(h, trees, states, events);
    if n > 0 {
      var s, s', event := states[n - 1], states[n], events[n - 1];
      RunStep(h, trees, states, events, n - 1);
      SettingsStep(h, s, event);
      PeersExactly(h, trees, states, events, n - 1);
      OneMorePeer(h, s, s', event);
      hide Distinct, EverLinked;
      forall peer ensures peer in s'.peers <==> EverLinked(h, states, events, n, peer) {
        LinkedNext(h, states, events, n, peer);
      }
    }
  }

  lemma OneMorePeer(h: Platform, s: State, s': State, event: Event)
    requires Distinct(s.peers) && h.self !in s.peers
    requires Succeeds(h, s, event) && event.call.LinkPeer? ==> event.call.peer != h.self
    requires s'.peers == (if Succeeds(h, s, event) && event.call.LinkPeer? && event.call.peer !in s.peers
                          then s.peers + [event.call.peer] else s.peers)
    ensures Distinct(s'.peers) && h.self !in s'.peers
    ensures forall peer :: peer in s'.peers <==> peer in s.peers || Links(h, s, event, peer)
  {
    hide Exec;
  }
}
