/** Runs of the contract, and the conservation and solvency theorems over all of them. */
module EscrowRuns {
  import opened Wrappers
  import opened Host
  import opened Sums
  import opened PrizeSplit
  import opened Commitments
  import opened EscrowModel
  import opened EscrowMoney
  import opened EscrowEffects

  // ---------- settlement ----------

  /** On a consistent state the last settlement check never fires, and acceptance is exact. */
  lemma SettlementExact(h: Platform, s: State, trees: Trees, env: Env, a: Settlement)
    requires Inv(h, s, trees)
    ensures DoSettle(h, s, env, a) != Err(PayoutExceedsDeposits)
    ensures DoSettle(h, s, env, a).Ok? ==>
              var total := s.leagues[a.id].league.totalDeposited;
              && 0 <= 20 * a.fee <= total && 0 <= 5 * a.cut <= a.fee
              && a.fee + Total(Amounts(a.winners)) == total
              && total == Sum(s.leagues[a.id].deposits)
  {
    hide PartitionOk, Inv, CheckFees, CheckWinners, PayFees;
    if DoSettle(h, s, env, a).Ok? { SettleGuards(h, s, env, a); }
    hide DoSettle;
    if a.id in s.leagues {
      OpenTotal(h, s, trees, a.id);
      var total := s.leagues[a.id].league.totalDeposited;
      if CheckFees(total, a.fee, a.cut).Ok? && CheckWinners(total, a.fee, Amounts(a.winners), a.bps).Ok? {
        SettlementFacts(total, a);
      }
    }
    NoExcess(h, s, env, a);
  }

  lemma NoExcess(h: Platform, s: State, env: Env, a: Settlement)
    requires a.id in s.leagues ==>
               var total := s.leagues[a.id].league.totalDeposited;
               var check := CheckWinners(total, a.fee, Amounts(a.winners), a.bps);
               total >= 0 && (CheckFees(total, a.fee, a.cut).Ok? && check.Ok? ==> check.value == total)
    ensures DoSettle(h, s, env, a) != Err(PayoutExceedsDeposits)
  {
    hide CheckFees, CheckWinners;
    if a.id in s.leagues { CheckFaults(s.leagues[a.id].league.totalDeposited, a); }
  }

  lemma OpenTotal(h: Platform, s: State, trees: Trees, id: U64)
    requires Inv(h, s, trees) && id in s.leagues
    ensures s.leagues[id].league.totalDeposited >= 0
    ensures !s.leagues[id].Closed() ==> s.leagues[id].league.totalDeposited == Sum(s.leagues[id].deposits)
  {
    assert PartitionOk(h, id, s.leagues[id], trees(id));
    TotalNotNegative(h, id, s.leagues[id], trees(id));
  }

  lemma CheckFaults(total: nat, a: Settlement)
    ensures CheckFees(total, a.fee, a.cut) != Err(PayoutExceedsDeposits)
    ensures CheckWinners(total, a.fee, Amounts(a.winners), a.bps) != Err(PayoutExceedsDeposits)
  {}

  /**
   Once the fees are within their caps no product, difference or running sum of the prize check leaves
   i128: every list gets the verdict it would get over unbounded integers.
   */
  lemma WinnersNeverTrap(total: nat, a: Settlement)
    requires CheckFees(total, a.fee, a.cut).Ok?
    ensures a.fee <= total
    ensures CheckWinners(total, a.fee, Amounts(a.winners), a.bps) == Verdict(total, a.fee, Amounts(a.winners), a.bps)
    ensures CheckWinners(total, a.fee, Amounts(a.winners), a.bps) != Err(HostTrap)
    ensures CheckedI128(a.fee - a.cut).Ok?
  {
    FeeCaps(total, a.fee, a.cut);
    WinnersInRange(total, a.fee, Amounts(a.winners), a.bps);
  }

  // ---------- conservation, one event at a time ----------

  lemma Untouched(h: Platform, s: State, s': State, trees: Trees, asset: Address)
    requires Inv(h, s, trees)
    requires s'.leagues == s.leagues && s'.withdrawals == s.withdrawals && s'.ledger == s.ledger
    ensures Inv(h, s', trees) && Surplus(h, s', trees, asset) == Surplus(h, s, trees, asset)
  {}

  lemma StatusCallsKeep(h: Platform, s: State, trees: Trees, env: Env, call: Call, asset: Address)
    requires Inv(h, s, trees) && Exec(h, s, env, call).Ok?
    requires call.CancelLeague? || call.Freeze? || call.Unfreeze?
    ensures var s' := Exec(h, s, env, call).value;
            Inv(h, s', trees) && Surplus(h, s', trees, asset) == Surplus(h, s, trees, asset)
  {
    hide Surplus, PartitionOk;
    match call
    case CancelLeague(caller, id) =>
      var p := s.leagues[id];
      assert p.(frozen := p.frozen, league := p.league.(status := Cancelled))
             == p.(league := p.league.(status := Cancelled));
      RelabelKeeps(h, s, trees, id, Cancelled, p.frozen, asset);
    case Freeze(admin, id) =>
      var p := s.leagues[id];
      assert p.(frozen := true, league := p.league.(status := p.league.status)) == p.(frozen := true);
      RelabelKeeps(h, s, trees, id, p.league.status, true, asset);
    case Unfreeze(admin, id) => ThawKeeps(h, s, trees, id, asset);
    case _ =>
  }

  lemma WithdrawalCallsKeep(h: Platform, s: State, trees: Trees, env: Env, call: Call, asset: Address)
    requires Inv(h, s, trees) && Exec(h, s, env, call).Ok?
    requires call.ProposeWithdrawal? || call.ApproveWithdrawal? || call.ExecuteWithdrawal?
    ensures var s' := Exec(h, s, env, call).value;
            && Inv(h, s', trees)
            && Surplus(h, s', trees, asset) == Surplus(h, s, trees, asset) + Stray(h, s, Called(env, call), asset)
            && Stray(h, s, Called(env, call), asset) >= 0
  {
    hide Surplus, PartitionOk;
    var s' := Exec(h, s, env, call).value;
    match call
    case ProposeWithdrawal(caller, id, destination, token, amount) =>
      WithdrawalNoteKeeps(h, s, trees, id, s'.withdrawals[id], asset);
    case ApproveWithdrawal(caller, id) =>
      WithdrawalNoteKeeps(h, s, trees, id, s'.withdrawals[id], asset);
    case ExecuteWithdrawal(caller, id) =>
      ExecuteWithdrawalKeeps(h, s, trees, env, caller, id, asset);
    case _ =>
  }

  lemma RefundCallsKeep(h: Platform, s: State, trees: Trees, env: Env, call: Call, asset: Address)
    requires Inv(h, s, trees) && Exec(h, s, env, call).Ok?
    requires call.EmergencyRefund? || call.RefundDeposit? || call.Refund? || call.ResolveRefund? || call.ClaimRefund?
    ensures var s' := Exec(h, s, env, call).value;
            Inv(h, s', trees) && Surplus(h, s', trees, asset) == Surplus(h, s, trees, asset)
  {
    hide Surplus, PartitionOk, Inv, DoRefund, Thaw, DoClaimRefund, ReturnDeposit;
    match call
    case EmergencyRefund(who, id) => ReturnDepositKeeps(h, s, trees, id, who, asset);
    case RefundDeposit(admin, id, who) => ReturnDepositKeeps(h, s, trees, id, who, asset);
    case Refund(admin, id, participants) => RefundKeeps(h, s, trees, env, admin, id, participants, asset);
    case ResolveRefund(admin, id, participants) =>
      ThawKeeps(h, s, trees, id, asset);
      RefundKeeps(h, Thaw(s, id), trees, env, admin, id, participants, asset);
    case ClaimRefund(who, id) => ClaimRefundKeeps(h, s, trees, env, who, id, asset);
    case _ =>
  }

  lemma SettleCallsKeep(h: Platform, s: State, trees: Trees, env: Env, call: Call, asset: Address)
    requires Inv(h, s, trees) && Fair(h, s, trees, Called(env, call)) && Exec(h, s, env, call).Ok?
    requires call.Settle? || call.ResolvePayout? || call.SettleMerkle?
    ensures var s' := Exec(h, s, env, call).value;
            && Inv(h, s', trees)
            && Surplus(h, s', trees, asset) == Surplus(h, s, trees, asset) + Stray(h, s, Called(env, call), asset)
            && Stray(h, s, Called(env, call), asset) >= 0
  {
    hide Surplus, PartitionOk, Inv, DoSettle, Thaw, SettleStray, CommitsToTree, DoSettleMerkle;
    match call
    case Settle(a) => SettleKeeps(h, s, trees, env, a, asset);
    case ResolvePayout(admin, id, winners, treasury, fee) =>
      ThawKeeps(h, s, trees, id, asset);
      SettleKeeps(h, Thaw(s, id), trees, env, PlainSettlement(admin, id, winners, treasury, fee), asset);
    case SettleMerkle(admin, id, root, pool, treasury, fee) =>
      SettleMerkleKeeps(h, s, trees, env, admin, id, root, pool, treasury, fee, asset);
    case _ =>
  }

  lemma OtherCallsKeep(h: Platform, s: State, trees: Trees, env: Env, call: Call, asset: Address)
    requires Inv(h, s, trees) && Fair(h, s, trees, Called(env, call)) && Exec(h, s, env, call).Ok?
    requires call.CreateLeague? || call.Deposit? || call.ClaimPrize? || call.ClaimMerkle?
    ensures var s' := Exec(h, s, env, call).value;
            Inv(h, s', trees) && Surplus(h, s', trees, asset) == Surplus(h, s, trees, asset)
  {
    hide Surplus, PartitionOk, Inv, DoCreateLeague, DoDeposit, DoClaimPrize, DoClaimMerkle, NoCollision;
    match call
    case CreateLeague(creator, id, fee, token) => CreateLeagueKeeps(h, s, trees, env, creator, id, fee, token, asset);
    case Deposit(who, id) => DepositKeeps(h, s, trees, env, who, id, asset);
    case ClaimPrize(who, id) => ClaimPrizeKeeps(h, s, trees, env, who, id, asset);
    case ClaimMerkle(id, prize, branch) =>
      ClaimMerkleIsOwed(h, s, trees, env, id, prize, branch);
      ClaimMerkleKeeps(h, s, trees, env, id, prize, branch, asset);
    case _ =>
  }

  /** Every event keeps the invariant and raises the surplus by exactly its stray money. */
  lemma EventConserves(h: Platform, s: State, trees: Trees, event: Event, asset: Address)
    requires Inv(h, s, trees) && Fair(h, s, trees, event)
    ensures var s' := Apply(h, s, event);
            && Inv(h, s', trees)
            && Surplus(h, s', trees, asset) == Surplus(h, s, trees, asset) + Stray(h, s, event, asset)
            && Stray(h, s, event, asset) >= 0
  {
    if event.Elsewhere? {
    } else {
      hide Surplus, PartitionOk, Inv, Exec, Fair;
      var Called(env, call) := event;
      if Exec(h, s, env, call).Ok? {
        if Administrative(call) {
          AdministrativeKeeps(h, s, env, call);
          Untouched(h, s, Exec(h, s, env, call).value, trees, asset);
        } else if call.CancelLeague? || call.Freeze? || call.Unfreeze? {
          StatusCallsKeep(h, s, trees, env, call, asset);
        } else if call.ProposeWithdrawal? || call.ApproveWithdrawal? || call.ExecuteWithdrawal? {
          WithdrawalCallsKeep(h, s, trees, env, call, asset);
        } else if call.Settle? || call.ResolvePayout? || call.SettleMerkle? {
          SettleCallsKeep(h, s, trees, env, call, asset);
        } else if call.CreateLeague? || call.Deposit? || call.ClaimPrize? || call.ClaimMerkle? {
          OtherCallsKeep(h, s, trees, env, call, asset);
        } else {
          RefundCallsKeep(h, s, trees, env, call, asset);
        }
      }
    }
  }

  // ---------- whole runs ----------

  ghost predicate FairStep(h: Platform, trees: Trees, s: State, event: Event, s': State) {
    Fair(h, s, trees, event) && s' == Apply(h, s, event)
  }

  /** Later events see later (or equal) clocks. */
  ghost predicate ClocksForward(events: seq<Event>) {
    forall i, j :: 0 <= i < j < |events| && events[i].Called? && events[j].Called? ==>
      events[i].env.time <= events[j].env.time && events[i].env.sequence <= events[j].env.sequence
  }

  /** A run from deployment: `states[i + 1]` follows `states[i]` by `events[i]`. */
  ghost predicate Run(h: Platform, trees: Trees, states: seq<State>, events: seq<Event>) {
    && |states| == |events| + 1
    && states[0] == EMPTY.(ledger := states[0].ledger)
    && (forall i {:trigger events[i]} :: 0 <= i < |events| ==> FairStep(h, trees, states[i], events[i], states[i + 1]))
    && ClocksForward(events)
  }

  ghost function StrayIn(h: Platform, states: seq<State>, events: seq<Event>, asset: Address, n: nat): int
    requires n <= |events| < |states|
  {
    if n == 0 then 0 else StrayIn(h, states, events, asset, n - 1) + Stray(h, states[n - 1], events[n - 1], asset)
  }

  /** Nothing is stored at deployment. */
  lemma RunStart(h: Platform, trees: Trees, states: seq<State>, events: seq<Event>)
    requires Run(h, trees, states, events)
    ensures |states| == |events| + 1 && states[0] == EMPTY.(ledger := states[0].ledger)
  {}

  /** The clocks of an event are not behind those of the run so far. */
  ghost predicate NotBehind(events: seq<Event>, event: Event) {
    event.Called? ==>
      forall i :: 0 <= i < |events| && events[i].Called? ==>
        events[i].env.time <= event.env.time && events[i].env.sequence <= event.env.sequence
  }

  lemma RunBegins(h: Platform, trees: Trees, s: State)
    requires s == EMPTY.(ledger := s.ledger)
    ensures Run(h, trees, [s], [])
  {}

  lemma RunExtends(h: Platform, trees: Trees, states: seq<State>, events: seq<Event>, event: Event)
    requires Run(h, trees, states, events)
    requires Fair(h, states[|events|], trees, event) && NotBehind(events, event)
    ensures Run(h, trees, states + [Apply(h, states[|events|], event)], events + [event])
  {
    var n := |events|;
    var states', events' := states + [Apply(h, states[n], event)], events + [event];
    hide Fair, Apply;
    forall i {:trigger events'[i]} | 0 <= i < |events'|
      ensures FairStep(h, trees, states'[i], events'[i], states'[i + 1])
    {
      if i < n { assert FairStep(h, trees, states[i], events[i], states[i + 1]); }
    }
  }

  lemma RunFair(h: Platform, trees: Trees, states: seq<State>, events: seq<Event>, n: nat)
    requires Run(h, trees, states, events) && n < |events|
    ensures Fair(h, states[n], trees, events[n]) && states[n + 1] == Apply(h, states[n], events[n])
  {
    assert FairStep(h, trees, states[n], events[n], states[n + 1]);
    hide Fair, Apply;
  }

  lemma EmptyBooks(h: Platform, s: State, trees: Trees, asset: Address)
    requires s == EMPTY.(ledger := s.ledger)
    ensures Inv(h, s, trees) && Surplus(h, s, trees, asset) == Balance(s.ledger, asset, h.self)
  {
    assert OwedByLeague(map[], trees, asset) == map[];
    assert ExecutedWithdrawals(map[], asset) == map[];
  }

  /** Conservation over a run: what came in from outside or was left behind, to the unit. */
  lemma {:induction false} RunConserves(h: Platform, trees: Trees, states: seq<State>, events: seq<Event>,
                                        asset: Address, n: nat)
    requires Run(h, trees, states, events) && n <= |events|
    ensures Inv(h, states[n], trees)
    ensures Surplus(h, states[n], trees, asset)
              == Balance(states[0].ledger, asset, h.self) + StrayIn(h, states, events, asset, n)
    ensures StrayIn(h, states, events, asset, n) >= 0
  {
    hide Run, Surplus, Inv, Stray, Fair, Apply;
    RunStart(h, trees, states, events);
    if n == 0 {
      EmptyBooks(h, states[0], trees, asset);
    } else {
      RunConserves(h, trees, states, events, asset, n - 1);
      RunFair(h, trees, states, events, n - 1);
      EventConserves(h, states[n - 1], trees, events[n - 1], asset);
    }
  }

  /** One step of a run, with what is known before it. */
  lemma RunStep(h: Platform, trees: Trees, states: seq<State>, events: seq<Event>, n: nat)
    requires Run(h, trees, states, events) && n < |events|
    ensures Inv(h, states[n], trees) && Fair(h, states[n], trees, events[n])
    ensures states[n + 1] == Apply(h, states[n], events[n])
  {
    hide Run, Inv, Fair, Apply;
    RunFair(h, trees, states, events, n);
    RunConserves(h, trees, states, events, h.self, n);
  }

  /** Solvency: holdings plus executed fee withdrawals always cover every obligation. */
  lemma Solvency(h: Platform, trees: Trees, states: seq<State>, events: seq<Event>, asset: Address, n: nat)
    requires Run(h, trees, states, events) && n <= |events|
    ensures var s := states[n];
            Balance(s.ledger, asset, h.self) + Withdrawn(s, asset) >= TotalOwed(s, trees, asset)
  {
    RunConserves(h, trees, states, events, asset, n);
  }

  // ---------- when nothing is left over ----------

  /** What an event must satisfy, before it happens, to leave no stray money of this asset. */
  ghost predicate Tight(h: Platform, s: State, event: Event, asset: Address) {
    match event
    case Elsewhere(ledger) => Balance(ledger, asset, h.self) == Balance(s.ledger, asset, h.self)
    case Called(env, call) =>
      Succeeds(h, s, event) ==>
        match call
        case Settle(a) => InAsset(s, a.id, asset) ==> TightSettlement(h, a)
        case ResolvePayout(admin, id, winners, treasury, fee) =>
          InAsset(s, id, asset) ==> TightSettlement(h, PlainSettlement(admin, id, winners, treasury, fee))
        case SettleMerkle(_, id, _, _, treasury, fee) => InAsset(s, id, asset) ==> treasury != h.self || fee == 0
        case ExecuteWithdrawal(_, id) =>
          id in s.withdrawals && s.withdrawals[id].asset == asset ==> s.withdrawals[id].destination != h.self
        case _ => true
  }

  /** A successful settlement leaves nothing behind exactly when it is tight. */
  lemma SettlementTight(h: Platform, s: State, trees: Trees, env: Env, a: Settlement)
    requires Inv(h, s, trees) && DoSettle(h, s, env, a).Ok?
    ensures SettleStray(h, a) == 0 <==> TightSettlement(h, a)
  {
    hide PartitionOk, SettleStray, TightSettlement;
    SettleGuards(h, s, env, a);
    hide DoSettle, CheckFees, CheckWinners, PayFees;
    var p := s.leagues[a.id];
    SettledBooks(h, p, trees(a.id), a, s.ledger, p.league.asset);
  }

  lemma NoStrayInCall(h: Platform, s: State, trees: Trees, env: Env, call: Call, asset: Address)
    requires Inv(h, s, trees) && Exec(h, s, env, call).Ok?
             && (call.Settle? || call.ResolvePayout? || call.SettleMerkle?)
    ensures Stray(h, s, Called(env, call), asset) == 0 <==> Tight(h, s, Called(env, call), asset)
  {
    hide SettleStray, TightSettlement, PartitionOk, Inv, DoSettle, DoSettleMerkle;
    match call
    case Settle(a) => SettlementTight(h, s, trees, env, a);
    case ResolvePayout(admin, id, winners, treasury, fee) =>
      ThawKeeps(h, s, trees, id, asset);
      SettlementTight(h, Thaw(s, id), trees, env, PlainSettlement(admin, id, winners, treasury, fee));
    case SettleMerkle(admin, id, root, pool, treasury, fee) =>
      SettleMerkleGuards(h, s, env, admin, id, root, pool, treasury, fee, asset);
    case _ =>
  }

  /** The exact condition, for every kind of event. */
  lemma NoStrayIff(h: Platform, s: State, trees: Trees, event: Event, asset: Address)
    requires Inv(h, s, trees)
    ensures Stray(h, s, event, asset) == 0 <==> Tight(h, s, event, asset)
  {
    hide SettleStray, TightSettlement, PartitionOk, Exec;
    if Succeeds(h, s, event) && (event.call.Settle? || event.call.ResolvePayout? || event.call.SettleMerkle?) {
      NoStrayInCall(h, s, trees, event.env, event.call, asset);
    }
  }

  lemma {:induction false} NoStrayInIff(h: Platform, trees: Trees, states: seq<State>, events: seq<Event>,
                                        asset: Address, n: nat)
    requires Run(h, trees, states, events) && n <= |events|
    ensures StrayIn(h, states, events, asset, n) == 0
            <==> forall i :: 0 <= i < n ==> Tight(h, states[i], events[i], asset)
  {
    hide Tight, Stray, Run, Inv, Fair, Apply, Surplus;
    RunStart(h, trees, states, events);
    if n > 0 {
      NoStrayInIff(h, trees, states, events, asset, n - 1);
      RunConserves(h, trees, states, events, asset, n - 1);
      RunStep(h, trees, states, events, n - 1);
      EventConserves(h, states[n - 1], trees, events[n - 1], asset);
      NoStrayIff(h, states[n - 1], trees, events[n - 1], asset);
    }
  }

  /** Exact solvency: nothing is left over exactly when the escrow began empty and every event so far was tight. */
  lemma ExactSolvency(h: Platform, trees: Trees, states: seq<State>, events: seq<Event>, asset: Address, n: nat)
    requires Run(h, trees, states, events) && n <= |events|
    ensures var s := states[n];
            Balance(s.ledger, asset, h.self) + Withdrawn(s, asset) == TotalOwed(s, trees, asset)
            <==> Balance(states[0].ledger, asset, h.self) == 0
                 && forall i :: 0 <= i < n ==> Tight(h, states[i], events[i], asset)
  {
    RunConserves(h, trees, states, events, asset, n);
    NoStrayInIff(h, trees, states, events, asset, n);
    hide Tight, Run, Inv;
  }
}
