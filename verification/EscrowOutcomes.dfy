/** What a settlement leaves behind: which prize is whose and until when, who gets the fees, which hash is kept. */
module EscrowOutcomes {
  import opened Wrappers
  import opened Host
  import opened PrizeSplit
  import opened Commitments
  import opened EscrowModel
  import opened EscrowMoney
  import opened EscrowEffects
  import opened EscrowRuns
  import opened EscrowRefunds
  import opened EscrowPayout
  import opened EscrowLifecycle

  predicate ListCall(call: Call) { call.Settle? || call.ResolvePayout? }

  /** The settlement that a call asks for. */
  function SettlementOf(call: Call): Settlement
    requires ListCall(call)
  {
    match call
    case Settle(a) => a
    case ResolvePayout(admin, id, winners, treasury, fee) => PlainSettlement(admin, id, winners, treasury, fee)
  }

  /** A successful settlement of this league by a list of winners. */
  predicate SettlesList(h: Platform, s: State, event: Event, id: U64) {
    Succeeds(h, s, event) && ListCall(event.call) && Subject(event.call) == id
  }

  predicate TakesPrize(h: Platform, s: State, event: Event, id: U64, who: Address) {
    Succeeds(h, s, event) && event.call == ClaimPrize(who, id)
  }

  // ---------- prizes ----------

  /** A settlement makes due to each name its prize from the list, and to others nothing. */
  lemma PrizesRecorded(h: Platform, s: State, trees: Trees, event: Event, id: U64, who: Address)
    requires Inv(h, s, trees) && SettlesList(h, s, event, id)
    ensures Due(Apply(h, s, event), trees, Prize(id, who)) == PrizeOf(SettlementOf(event.call).winners, who)
  {
    hide Exec, Inv, RecordPrizes, PrizeOf;
    LeagueEffect(h, s, event.env, event.call);
    assert id in s.leagues;
    NothingRecordedYet(h, s, trees, id);
    RecordedPrize(map[], SettlementOf(event.call).winners, who);
    PrizeNotNegative(SettlementOf(event.call).winners, who);
  }

  lemma NothingRecordedYet(h: Platform, s: State, trees: Trees, id: U64)
    requires Inv(h, s, trees) && id in s.leagues && !s.leagues[id].Closed()
    ensures s.leagues[id].claimable == map[]
  {
    assert PartitionOk(h, id, s.leagues[id], trees(id));
  }

  lemma {:induction false} PrizeNotNegative(winners: seq<WinnerPayout>, who: Address)
    ensures PrizeOf(winners, who) >= 0
  {
    if winners != [] { PrizeNotNegative(winners[..|winners| - 1], who); }
  }

  lemma ChangeTakes(call: Call, p: Partition, t: Tree, id: U64, who: Address)
    requires LeagueCall(call) && Suits(call, p) && p.league.status == Settled
    ensures DueFrom(Changed(call, p), t, Prize(id, who))
            == if call.ClaimPrize? && call.who == who then 0 else DueFrom(p, t, Prize(id, who))
  {
    hide Named, RecordPrizes;
  }

  lemma LeagueCallTakes(s: State, s': State, trees: Trees, call: Call, id: U64, who: Address)
    requires LeagueCall(call) && Effect(s, s', call) && id in s.leagues && s.leagues[id].league.status == Settled
    ensures Due(s', trees, Prize(id, who))
            == if call == ClaimPrize(who, id) then 0 else Due(s, trees, Prize(id, who))
  {
    hide Changed, Suits, DueFrom;
    if Subject(call) == id && !call.CreateLeague? { ChangeTakes(call, s.leagues[id], trees(id), id, who); }
  }

  /** In a settled league a prize stays due until its winner takes it. */
  lemma PrizeStep(h: Platform, s: State, trees: Trees, event: Event, id: U64, who: Address)
    requires id in s.leagues && s.leagues[id].league.status == Settled
    ensures Due(Apply(h, s, event), trees, Prize(id, who))
            == if TakesPrize(h, s, event, id, who) then 0 else Due(s, trees, Prize(id, who))
  {
    hide Exec, Transfer, RequiredApprovals, Effect, DueFrom;
    if Succeeds(h, s, event) {
      var Called(env, call) := event;
      if Administrative(call) {
        AdministrativeKeeps(h, s, env, call);
      } else if WithdrawalCall(call) {
        WithdrawalCallFrame(h, s, env, call);
      } else {
        LeagueEffect(h, s, env, call);
        LeagueCallTakes(s, Apply(h, s, event), trees, call, id, who);
      }
    }
  }

  lemma SettledAfter(h: Platform, trees: Trees, states: seq<State>, events: seq<Event>, id: U64, j: nat, n: nat)
    requires Run(h, trees, states, events) && j < n <= |events| && SettlesList(h, states[j], events[j], id)
    ensures id in states[n].leagues && states[n].leagues[id].league.status == Settled
  {
    hide Run, Inv, Apply, Fair, Exec;
    RunStart(h, trees, states, events);
    RunStep(h, trees, states, events, j);
    LifeStep(h, states[j], trees, events[j], id);
    LeagueLife(h, trees, states, events, id, j + 1, n);
  }

  /** From the settlement on, each winner is due the prize the list gave them until they take it, and nothing after. */
  lemma {:induction false} PrizeDue(h: Platform, trees: Trees, states: seq<State>, events: seq<Event>, id: U64,
                                    who: Address, j: nat, n: nat)
    requires Run(h, trees, states, events) && j < n <= |events| && SettlesList(h, states[j], events[j], id)
    ensures Due(states[n], trees, Prize(id, who))
            == if exists k :: j < k < n && TakesPrize(h, states[k], events[k], id, who) then 0
               else PrizeOf(SettlementOf(events[j].call).winners, who)
  {
    hide Run, Inv, Apply, Fair, Due, TakesPrize, PrizeOf, SettlesList;
    RunStart(h, trees, states, events);
    RunStep(h, trees, states, events, n - 1);
    if j == n - 1 {
      PrizesRecorded(h, states[j], trees, events[j], id, who);
    } else {
      PrizeDue(h, trees, states, events, id, who, j, n - 1);
      SettledAfter(h, trees, states, events, id, j, n - 1);
      PrizeStep(h, states[n - 1], trees, events[n - 1], id, who);
      assert TakesPrize(h, states[n - 1], events[n - 1], id, who) ==>
        exists k :: j < k < n && TakesPrize(h, states[k], events[k], id, who);
    }
  }

  /** With no payee repeated, every positive entry of the list is due to its winner as it stands. */
  lemma EachWinnerIsDue(h: Platform, s: State, trees: Trees, event: Event, id: U64, i: nat)
    requires Inv(h, s, trees) && SettlesList(h, s, event, id)
    requires var winners := SettlementOf(event.call).winners;
             i < |winners| && DistinctPayees(winners) && winners[i].amount > 0
    ensures var w := SettlementOf(event.call).winners[i];
            Due(Apply(h, s, event), trees, Prize(id, w.winner)) == w.amount
  {
    PrizesRecorded(h, s, trees, event, id, SettlementOf(event.call).winners[i].winner);
    PrizeOfEach(SettlementOf(event.call).winners, i);
    hide Exec, Due, PrizeOf;
  }

  /** Taking a prize moves exactly what is due from the escrow to the winner. */
  lemma PrizePaid(h: Platform, s: State, trees: Trees, event: Event, id: U64, who: Address)
    requires Inv(h, s, trees) && Fair(h, s, trees, event) && TakesPrize(h, s, event, id, who)
    ensures id in s.leagues && Due(s, trees, Prize(id, who)) > 0
    ensures var asset, s' := s.leagues[id].league.asset, Apply(h, s, event);
            && Balance(s'.ledger, asset, who) == Balance(s.ledger, asset, who) + Due(s, trees, Prize(id, who))
            && Balance(s'.ledger, asset, h.self) == Balance(s.ledger, asset, h.self) - Due(s, trees, Prize(id, who))
  {
    PrizeTransfer(h, s, event.env, who, id);
    var p := s.leagues[id];
    assert PartitionOk(h, id, p, trees(id));
    hide Inv, PartitionOk, Transfer, Balance, DoClaimPrize;
    TransferMoves(s.ledger, p.league.asset, h.self, who, p.claimable[who], p.league.asset, who);
    TransferMoves(s.ledger, p.league.asset, h.self, who, p.claimable[who], p.league.asset, h.self);
  }

  lemma PrizeTransfer(h: Platform, s: State, env: Env, who: Address, id: U64)
    requires DoClaimPrize(h, s, env, who, id).Ok?
    ensures id in s.leagues && who in s.leagues[id].claimable && who in env.auth
    ensures var p := s.leagues[id];
            Transfer(s.ledger, p.league.asset, h.self, who, p.claimable[who])
            == Ok(DoClaimPrize(h, s, env, who, id).value.ledger)
  {
    hide Transfer, EnsureOperational;
  }

  // ---------- fees ----------

  /** What an address gains in fees: the treasury the net fee, the affiliate the cut. */
  function FeeGain(a: Settlement, b: Address): int {
    (if b == a.treasury then a.fee - a.cut else 0) + (if a.affiliate == Some(b) then a.cut else 0)
  }

  /** What leaves the escrow: a cut without an affiliate stays. */
  function FeeOutflow(a: Settlement): int {
    if a.affiliate.Some? then a.fee else a.fee - a.cut
  }

  lemma PayFeesBalances(h: Platform, ledger: Ledger, asset: Address, a: Settlement, token: Address, b: Address)
    requires 0 <= a.cut <= a.fee && PayFees(h, ledger, asset, a).Ok?
    ensures Balance(PayFees(h, ledger, asset, a).value, token, b)
            == Balance(ledger, token, b)
               + (if token == asset then FeeGain(a, b) - (if b == h.self then FeeOutflow(a) else 0) else 0)
  {
    var net := a.fee - a.cut;
    if net > 0 { TransferMoves(ledger, asset, h.self, a.treasury, net, token, b); }
    var paid := if net > 0 then Transfer(ledger, asset, h.self, a.treasury, net).value else ledger;
    if a.affiliate.Some? && a.cut > 0 { TransferMoves(paid, asset, h.self, a.affiliate.value, a.cut, token, b); }
    hide Transfer, Balance;
  }

  lemma TransferMoves(ledger: Ledger, asset: Address, from: Address, to: Address, amount: int, token: Address,
                      b: Address)
    requires Transfer(ledger, asset, from, to, amount).Ok?
    ensures Balance(Transfer(ledger, asset, from, to, amount).value, token, b)
            == Balance(ledger, token, b)
               + (if token == asset then (if b == to then amount else 0) - (if b == from then amount else 0) else 0)
  {}

  lemma SettlePaysFees(h: Platform, s: State, trees: Trees, env: Env, a: Settlement, token: Address, b: Address)
    requires Inv(h, s, trees) && DoSettle(h, s, env, a).Ok?
    ensures a.id in s.leagues && 0 <= a.cut <= a.fee
    ensures Balance(DoSettle(h, s, env, a).value.ledger, token, b)
            == Balance(s.ledger, token, b)
               + (if token == s.leagues[a.id].league.asset
                  then FeeGain(a, b) - (if b == h.self then FeeOutflow(a) else 0) else 0)
  {
    hide Inv, FeeGain, FeeOutflow, PayFees, CheckFees, CheckWinners;
    SettleGuards(h, s, env, a);
    hide DoSettle;
    OpenTotal(h, s, trees, a.id);
    FeeCaps(s.leagues[a.id].league.totalDeposited, a.fee, a.cut);
    PayFeesBalances(h, s.ledger, s.leagues[a.id].league.asset, a, token, b);
  }

  /** Every balance after a settlement by list: the treasury and the affiliate are paid, and nobody else. */
  lemma FeesPaid(h: Platform, s: State, trees: Trees, event: Event, id: U64, token: Address, b: Address)
    requires Inv(h, s, trees) && SettlesList(h, s, event, id)
    ensures id in s.leagues
    ensures var a := SettlementOf(event.call);
            Balance(Apply(h, s, event).ledger, token, b)
            == Balance(s.ledger, token, b)
               + (if token == s.leagues[id].league.asset
                  then FeeGain(a, b) - (if b == h.self then FeeOutflow(a) else 0) else 0)
  {
    hide DoSettle, Inv, FeeGain, FeeOutflow;
    match event.call
    case Settle(a) => SettlePaysFees(h, s, trees, event.env, a, token, b);
    case ResolvePayout(admin, i, winners, treasury, fee) =>
      ThawKeeps(h, s, trees, i, token);
      SettlePaysFees(h, Thaw(s, i), trees, event.env, SettlementOf(event.call), token, b);
    case _ =>
  }

  /** Every balance after a settlement by Merkle root. */
  lemma MerkleFeePaid(h: Platform, s: State, event: Event, token: Address, b: Address)
    requires Succeeds(h, s, event) && event.call.SettleMerkle?
    ensures event.call.id in s.leagues && event.call.fee >= 0
    ensures var call := event.call;
            Balance(Apply(h, s, event).ledger, token, b)
            == Balance(s.ledger, token, b)
               + (if token == s.leagues[call.id].league.asset
                  then (if b == call.treasury then call.fee else 0) - (if b == h.self then call.fee else 0) else 0)
  {
    hide RequireAdmin;
  }

  // ---------- settlement hashes ----------

  lemma HashStored(h: Platform, s: State, env: Env, a: Settlement)
    requires DoSettle(h, s, env, a).Ok?
    ensures a.hash.Some? ==> a.hash.value == h.sha256(SettlementBytes(a.winners, a.fee))
    ensures DoSettle(h, s, env, a).value.settlementHashes
            == if a.hash.Some? then s.settlementHashes[a.id := a.hash.value] else s.settlementHashes
    ensures a.proof.Some? ==> exists i :: 0 <= i < 32 && a.proof.value[i] != 0
  {
    hide CheckFees, CheckWinners, PayFees, RecordPrizes, AuthorizeSigners, EnsureOperational, SettlementBytes;
  }

  /** A settlement of this league that came with a hash. */
  predicate Hashes(h: Platform, s: State, event: Event, id: U64) {
    Succeeds(h, s, event) && event.call.Settle? && event.call.settlement.id == id && event.call.settlement.hash.Some?
  }

  lemma HashStep(h: Platform, s: State, event: Event, id: U64)
    ensures Hashes(h, s, event, id) ==>
              var a := event.call.settlement;
              && Apply(h, s, event).settlementHashes == s.settlementHashes[id := a.hash.value]
              && a.hash.value == h.sha256(SettlementBytes(a.winners, a.fee))
    ensures !Hashes(h, s, event, id) ==>
              (id in Apply(h, s, event).settlementHashes <==> id in s.settlementHashes)
              && (id in s.settlementHashes ==> Apply(h, s, event).settlementHashes[id] == s.settlementHashes[id])
  {
    if Succeeds(h, s, event) {
      var Called(env, call) := event;
      if call.Settle? {
        hide DoSettle, SettlementBytes;
        HashStored(h, s, env, call.settlement);
      } else if PauseCall(call) {
        PauseCallFrame(h, s, env, call);
        hide Exec;
      } else if Administrative(call) {
        SetupCallFrame(h, s, env, call);
        hide Exec;
      } else if WithdrawalCall(call) {
        hide Exec, Transfer, RequiredApprovals;
        WithdrawalCallFrame(h, s, env, call);
      } else {
        hide Exec, Suits, Changed;
        LeagueEffect(h, s, env, call);
      }
    }
  }

  /** A stored hash is that of the winners and the fee the league was settled with. */
  lemma {:induction false} HashOrigin(h: Platform, trees: Trees, states: seq<State>, events: seq<Event>, n: nat,
                                      id: U64)
    returns (j: nat)
    requires Run(h, trees, states, events) && n <= |events| && id in states[n].settlementHashes
    ensures j < n && Hashes(h, states[j], events[j], id)
    ensures var a := events[j].call.settlement;
            states[n].settlementHashes[id] == a.hash.value == h.sha256(SettlementBytes(a.winners, a.fee))
    ensures forall k :: 0 <= k < n && SettlesList(h, states[k], events[k], id) ==> k == j
  {
    hide Run, Inv, Apply, Fair, Hashes, SettlementBytes, SettlesList;
    RunStart(h, trees, states, events);
    assert n > 0;
    RunStep(h, trees, states, events, n - 1);
    HashStep(h, states[n - 1], events[n - 1], id);
    if Hashes(h, states[n - 1], events[n - 1], id) {
      j := n - 1;
      HashesSettles(h, states[j], events[j], id);
      forall k | 0 <= k < n && SettlesList(h, states[k], events[k], id) ensures k == j {
        if k < j { OnlyOneList(h, trees, states, events, id, k, j); }
      }
    } else {
      j := HashOrigin(h, trees, states, events, n - 1, id);
      HashesSettles(h, states[j], events[j], id);
      if SettlesList(h, states[n - 1], events[n - 1], id) { OnlyOneList(h, trees, states, events, id, j, n - 1); }
    }
  }

  lemma HashesSettles(h: Platform, s: State, event: Event, id: U64)
    requires Hashes(h, s, event, id)
    ensures SettlesList(h, s, event, id)
  {
    hide Exec;
  }

  lemma OnlyOneList(h: Platform, trees: Trees, states: seq<State>, events: seq<Event>, id: U64, j: nat, k: nat)
    requires Run(h, trees, states, events) && j < k < |events|
    requires SettlesList(h, states[j], events[j], id)
    ensures !SettlesList(h, states[k], events[k], id)
  {
    SettledAfter(h, trees, states, events, id, j, k);
    SettledAtMostOnce(h, trees, states, events, id, k, k);
    hide Run, Exec;
  }
}
