/** What a successful invocation of each kind does to storage, in one place: the rest of storage is left alone. */
module EscrowEffects {
  import opened Wrappers
  import opened Host
  import opened Sums
  import opened PrizeSplit
  import opened Commitments
  import opened EscrowModel
  import opened EscrowMoney

  /** Calls that neither touch a league nor move tokens nor touch a withdrawal. */
  predicate Administrative(call: Call) {
    call.Initialize? || call.InitializeMultisig? || call.Pause? || call.Unpause? || call.MultisigPause?
    || call.MultisigUnpause? || call.SetGuardian? || call.LinkPeer? || call.EmergencyPause?
    || call.FederatedPause? || call.ProposeUpgrade? || call.DoUpgrade?
  }

  predicate WithdrawalCall(call: Call) {
    call.ProposeWithdrawal? || call.ApproveWithdrawal? || call.ExecuteWithdrawal?
  }

  predicate LeagueCall(call: Call) { !Administrative(call) && !WithdrawalCall(call) }

  /** The league a call is about. */
  function Subject(call: Call): U64
    requires LeagueCall(call)
  {
    if call.Settle? then call.settlement.id else call.id
  }

  // ---------- leagues ----------

  function Named(participants: seq<Address>): set<Address> {
    set i | 0 <= i < |participants| :: participants[i]
  }

  /** A list refund drops exactly the entries it names. */
  lemma {:induction false} RefundEachLeaves(h: Platform, ledger: Ledger, asset: Address, deposits: map<Address, int>,
                                            participants: seq<Address>)
    requires RefundEach(h, ledger, asset, deposits, participants).Ok?
    ensures RefundEach(h, ledger, asset, deposits, participants).value.1 == deposits - Named(participants)
    decreases |participants|
  {
    if participants == [] {
      assert Named(participants) == {} && deposits - {} == deposits;
    } else {
      var who, rest := participants[0], participants[1..];
      NamedFirst(participants);
      if who !in deposits {
        RefundEachLeaves(h, ledger, asset, deposits, rest);
        assert deposits - Named(participants) == deposits - Named(rest);
      } else {
        var paid := if deposits[who] > 0 then Transfer(ledger, asset, h.self, who, deposits[who]).value else ledger;
        RefundEachLeaves(h, paid, asset, deposits - {who}, rest);
        assert deposits - Named(participants) == deposits - {who} - Named(rest);
      }
    }
  }

  lemma NamedFirst(participants: seq<Address>)
    requires participants != []
    ensures Named(participants) == {participants[0]} + Named(participants[1..])
  {
    forall p | p in Named(participants) ensures p in {participants[0]} + Named(participants[1..]) {
      var i :| 0 <= i < |participants| && participants[i] == p;
      if i > 0 { assert participants[1..][i - 1] == p; }
    }
  }

  function Returned(p: Partition, who: Address): Partition
    requires who in p.deposits
  {
    p.(deposits := p.deposits - {who},
       league := p.league.(totalDeposited := p.league.totalDeposited - p.deposits[who],
                           participantCount := p.league.participantCount - 1))
  }

  function Relabelled(p: Partition, status: Status): Partition {
    p.(league := p.league.(status := status))
  }

  /** What the guards have made sure of about the league. */
  predicate Suits(call: Call, p: Partition)
    requires LeagueCall(call)
  {
    match call
    case Deposit(who, _) => p.league.status == Upcoming && who !in p.deposits
    case EmergencyRefund(who, _) => p.league.status != Settled && who in p.deposits && p.deposits[who] > 0
    case RefundDeposit(_, _, who) => p.league.status != Settled && who in p.deposits && p.deposits[who] > 0
    case Refund(_, _, _) => p.league.status != Settled
    case ResolveRefund(_, _, _) => p.league.status != Settled
    case CancelLeague(_, _) => p.league.status != Settled
    case ClaimRefund(who, _) => p.league.status == Cancelled && who in p.deposits && p.deposits[who] > 0
    case ClaimPrize(who, _) => !p.frozen && who in p.claimable
    case ClaimMerkle(_, prize, _) =>
      p.league.status == Settled && !p.frozen && prize.winner !in p.claimed && p.root.Some?
    case Settle(_) => !p.Closed() && !p.frozen
    case ResolvePayout(_, _, _, _, _) => !p.Closed()
    case SettleMerkle(_, _, _, _, _, _) => !p.Closed() && !p.frozen
    case Freeze(_, _) => !p.Closed()
    case Unfreeze(_, _) => true
    case CreateLeague(_, _, _, _) => false
  }

  /** The league as the call leaves it. */
  function Changed(call: Call, p: Partition): Partition
    requires LeagueCall(call) && Suits(call, p)
  {
    match call
    case Deposit(who, _) =>
      p.(deposits := p.deposits[who := p.league.entryFee],
         league := p.league.(totalDeposited := p.league.totalDeposited + p.league.entryFee,
                             participantCount := p.league.participantCount + 1))
    case EmergencyRefund(who, _) => Returned(p, who)
    case RefundDeposit(_, _, who) => Returned(p, who)
    case Refund(_, _, participants) => Relabelled(p.(deposits := p.deposits - Named(participants)), Cancelled)
    case ResolveRefund(_, _, participants) =>
      Relabelled(p.(deposits := p.deposits - Named(participants), frozen := false), Cancelled)
    case CancelLeague(_, _) => Relabelled(p, Cancelled)
    case ClaimRefund(who, _) =>
      p.(deposits := p.deposits[who := 0],
         league := p.league.(totalDeposited := p.league.totalDeposited - p.deposits[who]))
    case ClaimPrize(who, _) => p.(claimable := p.claimable - {who})
    case ClaimMerkle(_, prize, _) => p.(claimed := p.claimed + {prize.winner})
    case Settle(a) => Relabelled(p.(claimable := RecordPrizes(p.claimable, a.winners)), Settled)
    case ResolvePayout(_, _, winners, _, _) =>
      Relabelled(p.(claimable := RecordPrizes(p.claimable, winners), frozen := false), Settled)
    case SettleMerkle(_, _, root, _, _, _) => Relabelled(p.(root := Some(root)), Settled)
    case Freeze(_, _) => p.(frozen := true)
    case Unfreeze(_, _) => p.(frozen := false)
  }

  /** Calls about leagues touch leagues, tokens and settlement hashes, and nothing else. */
  predicate LeagueOnly(s: State, s': State) {
    s' == s.(leagues := s'.leagues, ledger := s'.ledger, settlementHashes := s'.settlementHashes)
  }

  /** The effect of a call on the leagues: one is created, one is changed, or a missing one is thawed. */
  ghost predicate Effect(s: State, s': State, call: Call)
    requires LeagueCall(call)
  {
    var id := Subject(call);
    && LeagueOnly(s, s') && (!call.Settle? ==> s'.settlementHashes == s.settlementHashes)
    && if call.CreateLeague? then
         var league := League(call.creator, call.entryFee, call.asset, 0, 0, Upcoming);
         id !in s.leagues && s'.leagues == s.leagues[id := Partition(league, map[], map[], None, {}, false)]
       else if id in s.leagues then
         Suits(call, s.leagues[id]) && s'.leagues == s.leagues[id := Changed(call, s.leagues[id])]
       else call.Unfreeze? && s'.leagues == s.leagues
  }

  lemma RefundEffect(h: Platform, s: State, env: Env, admin: Address, id: U64, participants: seq<Address>)
    requires DoRefund(h, s, env, admin, id, participants).Ok?
    ensures Effect(s, DoRefund(h, s, env, admin, id, participants).value, Call.Refund(admin, id, participants))
  {
    hide RefundEach, RequireAdmin, Named;
    var p := s.leagues[id];
    RefundEachLeaves(h, s.ledger, p.league.asset, p.deposits, participants);
  }

  lemma SettleEffect(h: Platform, s: State, env: Env, a: Settlement)
    requires DoSettle(h, s, env, a).Ok?
    ensures Effect(s, DoSettle(h, s, env, a).value, Call.Settle(a))
    ensures a.hash.None? ==> DoSettle(h, s, env, a).value.settlementHashes == s.settlementHashes
  {
    hide CheckFees, CheckWinners, PayFees, RecordPrizes, AuthorizeSigners, EnsureOperational, SettlementBytes;
  }

  /** Thawing first makes no difference to the entries that the call itself sets. */
  lemma ThawedEffect(s: State, s': State, id: U64, inner: Call, outer: Call)
    requires inner.Settle? || inner.Refund?
    requires Subject(inner) == id && Effect(Thaw(s, id), s', inner)
    requires inner.Settle? ==> s'.settlementHashes == s.settlementHashes
    requires inner.Settle? ==> outer.ResolvePayout? && outer.id == id && outer.winners == inner.settlement.winners
    requires inner.Refund? ==> outer.ResolveRefund? && outer.id == id && outer.participants == inner.participants
    ensures Effect(s, s', outer)
  {
    hide RecordPrizes, Named;
  }

  lemma ResolveEffect(h: Platform, s: State, env: Env, call: Call)
    requires (call.ResolvePayout? || call.ResolveRefund?) && Exec(h, s, env, call).Ok?
    ensures Effect(s, Exec(h, s, env, call).value, call)
  {
    assert Thaw(s, call.id).settlementHashes == s.settlementHashes;
    hide RequireAdmin, DoSettle, DoRefund, Thaw, Effect;
    match call
    case ResolvePayout(admin, id, winners, treasury, fee) =>
      var a := PlainSettlement(admin, id, winners, treasury, fee);
      SettleEffect(h, Thaw(s, id), env, a);
      ThawedEffect(s, Exec(h, s, env, call).value, id, Call.Settle(a), call);
    case ResolveRefund(admin, id, participants) =>
      RefundEffect(h, Thaw(s, id), env, admin, id, participants);
      ThawedEffect(s, Exec(h, s, env, call).value, id, Call.Refund(admin, id, participants), call);
  }

  lemma DepositEffect(h: Platform, s: State, env: Env, who: Address, id: U64)
    requires DoDeposit(h, s, env, who, id).Ok?
    ensures Effect(s, DoDeposit(h, s, env, who, id).value, Call.Deposit(who, id))
  {
    hide EnsureOperational, Transfer;
  }

  lemma ReturnEffect(h: Platform, s: State, env: Env, call: Call)
    requires (call.EmergencyRefund? || call.RefundDeposit?) && Exec(h, s, env, call).Ok?
    ensures Effect(s, Exec(h, s, env, call).value, call)
  {
    hide RequireAdmin, Transfer;
  }

  lemma ClaimEffect(h: Platform, s: State, env: Env, call: Call)
    requires (call.ClaimRefund? || call.ClaimPrize? || call.ClaimMerkle?) && Exec(h, s, env, call).Ok?
    ensures Effect(s, Exec(h, s, env, call).value, call)
  {
    hide EnsureOperational, Transfer, BranchRoot;
  }

  lemma StatusEffect(h: Platform, s: State, env: Env, call: Call)
    requires (call.CreateLeague? || call.CancelLeague? || call.Freeze? || call.Unfreeze?) && Exec(h, s, env, call).Ok?
    ensures Effect(s, Exec(h, s, env, call).value, call)
  {
    hide RequireAdmin;
  }

  lemma SettleMerkleEffect(h: Platform, s: State, env: Env, call: Call)
    requires call.SettleMerkle? && Exec(h, s, env, call).Ok?
    ensures Effect(s, Exec(h, s, env, call).value, call)
  {
    hide RequireAdmin, Transfer;
  }

  lemma LeagueEffect(h: Platform, s: State, env: Env, call: Call)
    requires LeagueCall(call) && Exec(h, s, env, call).Ok?
    ensures Effect(s, Exec(h, s, env, call).value, call)
  {
    hide Effect;
    if call.Deposit? || call.Settle? || call.Refund? {
      hide DoDeposit, DoSettle, DoRefund;
      match call
      case Deposit(who, id) => DepositEffect(h, s, env, who, id);
      case Settle(a) => SettleEffect(h, s, env, a);
      case Refund(admin, id, participants) => RefundEffect(h, s, env, admin, id, participants);
    } else {
      hide Exec;
      if call.ResolvePayout? || call.ResolveRefund? {
        ResolveEffect(h, s, env, call);
      } else if call.EmergencyRefund? || call.RefundDeposit? {
        ReturnEffect(h, s, env, call);
      } else if call.ClaimRefund? || call.ClaimPrize? || call.ClaimMerkle? {
        ClaimEffect(h, s, env, call);
      } else if call.SettleMerkle? {
        SettleMerkleEffect(h, s, env, call);
      } else {
        StatusEffect(h, s, env, call);
      }
    }
  }

  // ---------- withdrawals ----------

  /** What one withdrawal call does to the withdrawal it names; nothing else changes but the tokens paid. */
  lemma WithdrawalCallFrame(h: Platform, s: State, env: Env, call: Call)
    requires WithdrawalCall(call) && Exec(h, s, env, call).Ok?
    ensures var s', id := Exec(h, s, env, call).value, call.proposal;
            && s.config.Some? && call.caller in env.auth && call.caller in s.config.value.signers
            && s' == s.(withdrawals := s'.withdrawals, ledger := s'.ledger)
            && id in s'.withdrawals && s'.withdrawals == s.withdrawals[id := s'.withdrawals[id]]
            && (call.ProposeWithdrawal? ==>
                  id !in s.withdrawals
                  && s'.withdrawals[id] == Withdrawal(call.caller, call.destination, call.asset, call.amount,
                                                      env.sequence + TIMELOCK_LEDGERS, [call.caller], false))
            && (call.ApproveWithdrawal? ==>
                  id in s.withdrawals && !s.withdrawals[id].executed && call.caller !in s.withdrawals[id].approvals
                  && s'.withdrawals[id] == s.withdrawals[id].(approvals := s.withdrawals[id].approvals + [call.caller]))
            && (call.ExecuteWithdrawal? ==>
                  id in s.withdrawals && !s.withdrawals[id].executed
                  && env.sequence >= s.withdrawals[id].unlockLedger
                  && |s.withdrawals[id].approvals| >= RequiredApprovals(s.config.value)
                  && s'.withdrawals[id] == s.withdrawals[id].(executed := true)
                  && Transfer(s.ledger, s.withdrawals[id].asset, h.self, s.withdrawals[id].destination,
                              s.withdrawals[id].amount) == Ok(s'.ledger))
  {
    hide Transfer;
  }

  // ---------- administration ----------

  lemma AdministrativeKeeps(h: Platform, s: State, env: Env, call: Call)
    requires Administrative(call) && Exec(h, s, env, call).Ok?
    ensures var s' := Exec(h, s, env, call).value;
            s'.leagues == s.leagues && s'.withdrawals == s.withdrawals && s'.ledger == s.ledger
  {
    hide AuthorizeSigners, RequireAdmin, RequireSigner, NoneIn, AllIn;
  }

  /** When the delay of an emergency pause begun now will be over. */
  function DelayEnd(time: U64): U64 {
    if time + 86_400 > U64_MAX then U64_MAX else time + 86_400
  }

  predicate PauseCall(call: Call) {
    call.Pause? || call.Unpause? || call.MultisigPause? || call.MultisigUnpause? || call.EmergencyPause?
      || call.FederatedPause?
  }

  /** What the pause calls do to the three pause entries, and who may make them. */
  lemma PauseCallFrame(h: Platform, s: State, env: Env, call: Call)
    requires PauseCall(call) && Exec(h, s, env, call).Ok?
    ensures var s' := Exec(h, s, env, call).value;
            && s' == s.(paused := s'.paused, pausedAt := s'.pausedAt, unpauseAfter := s'.unpauseAfter)
            && (call.Pause? || call.MultisigPause? ==>
                  !s.paused && s'.paused && s'.pausedAt == Some(env.time) && s'.unpauseAfter == s.unpauseAfter)
            && (call.EmergencyPause? || call.FederatedPause? ==>
                  s'.paused && s'.pausedAt == (if s.paused then s.pausedAt else Some(env.time))
                  && s'.unpauseAfter == Some(DelayEnd(env.time)))
            && (call.Unpause? || call.MultisigUnpause? ==> s.paused && !s'.paused && s'.pausedAt == None)
            && (call.Unpause? ==>
                  s.admin == Some(call.admin) && call.admin in env.auth && s'.unpauseAfter == None
                  && (s.unpauseAfter.Some? ==> s.unpauseAfter.value <= env.time))
            && (call.MultisigUnpause? ==>
                  AuthorizeSigners(s, env, call.approvals).Pass? && s'.unpauseAfter == s.unpauseAfter)
            && (call.EmergencyPause? ==> s.guardian.Some?) && (call.FederatedPause? ==> s.peers != [])
            && (call.Pause? ==> s.admin.Some?) && (call.MultisigPause? ==> s.config.Some?)
  {
    hide ApprovalsFrom, NoneIn;
  }

  /** The other administrative calls leave the pause entries alone; initialisation happens once. */
  lemma SetupCallFrame(h: Platform, s: State, env: Env, call: Call)
    requires Administrative(call) && !PauseCall(call) && Exec(h, s, env, call).Ok?
    ensures var s' := Exec(h, s, env, call).value;
            && (call.Initialize? ==>
                  s.admin.None? && call.admin in env.auth
                  && s' == s.(admin := Some(call.admin), paused := false, config := Some(AdminConfig([call.admin], 1))))
            && (call.InitializeMultisig? ==>
                  s.admin.None? && 0 < call.threshold <= |call.signers| <= 32
                  && (forall i :: 0 <= i < |call.signers| ==> call.signers[i] in env.auth)
                  && s' == s.(admin := Some(call.signers[0]),
                              config := Some(AdminConfig(call.signers, call.threshold))))
            && (call.SetGuardian? ==>
                  AuthorizeSigners(s, env, call.approvals).Pass? && s' == s.(guardian := Some(call.guardian)))
            && (call.LinkPeer? ==>
                  AuthorizeSigners(s, env, call.approvals).Pass? && call.peer != h.self
                  && s' == s.(peers := if call.peer in s.peers then s.peers else s.peers + [call.peer]))
            && (call.ProposeUpgrade? ==>
                  s.config.Some? && call.proposer in s.config.value.signers && call.proposer in env.auth
                  && s' == s.(upgrade := Some(Upgrade(call.wasmHash, call.proposer, env.sequence + TIMELOCK_LEDGERS))))
            && (call.DoUpgrade? ==>
                  AuthorizeSigners(s, env, call.approvals).Pass? && s.upgrade.Some? && s' == s.(upgrade := None)
                  && s.upgrade.value.wasmHash == call.wasmHash && env.sequence >= s.upgrade.value.unlockLedger)
  {
    hide ApprovalsFrom;
  }
}
