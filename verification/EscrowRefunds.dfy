/** The refund ledger: what each participant paid in and got back, against the stored deposit. */
module EscrowRefunds {
  import opened Wrappers
  import opened Host
  import opened Sums
  import opened EscrowModel
  import opened EscrowMoney
  import opened EscrowEffects
  import opened EscrowRuns

  function Entry(deposits: map<Address, int>, who: Address): int {
    if who in deposits then deposits[who] else 0
  }

  function DepositOf(s: State, id: U64, who: Address): int {
    if id in s.leagues then Entry(s.leagues[id].deposits, who) else 0
  }

  /** All routes by which a deposit is paid back. */
  predicate IsRefund(call: Call) {
    call.EmergencyRefund? || call.RefundDeposit? || call.Refund? || call.ResolveRefund? || call.ClaimRefund?
  }

  predicate IsDeposit(call: Call) { call.Deposit? }

  /** How many tokens of the league's asset an event adds to `who`, as the token ledger sees it. */
  function Gain(h: Platform, s: State, event: Event, id: U64, who: Address): int {
    if id !in s.leagues then 0
    else
      var asset := s.leagues[id].league.asset;
      Balance(Apply(h, s, event).ledger, asset, who) - Balance(s.ledger, asset, who)
  }

  /** What an event takes from `who` as a deposit, and gives back as a refund. */
  function TakenBy(h: Platform, s: State, event: Event, id: U64, who: Address): int {
    if event.Called? && IsDeposit(event.call) && event.call.id == id then -Gain(h, s, event, id, who) else 0
  }

  function ReturnedBy(h: Platform, s: State, event: Event, id: U64, who: Address): int {
    if event.Called? && IsRefund(event.call) && event.call.id == id then Gain(h, s, event, id, who) else 0
  }

  ghost function PaidIn(h: Platform, states: seq<State>, events: seq<Event>, id: U64, who: Address, n: nat): int
    requires n <= |events| < |states|
  {
    if n == 0 then 0 else PaidIn(h, states, events, id, who, n - 1) + TakenBy(h, states[n - 1], events[n - 1], id, who)
  }

  ghost function PaidOut(h: Platform, states: seq<State>, events: seq<Event>, id: U64, who: Address, n: nat): int
    requires n <= |events| < |states|
  {
    if n == 0 then 0
    else PaidOut(h, states, events, id, who, n - 1) + ReturnedBy(h, states[n - 1], events[n - 1], id, who)
  }

  lemma {:induction false} RefundEachPays(h: Platform, ledger: Ledger, asset: Address, deposits: map<Address, int>,
                                          participants: seq<Address>, who: Address)
    requires who != h.self && h.self !in deposits && forall w :: w in deposits ==> deposits[w] >= 0
    requires RefundEach(h, ledger, asset, deposits, participants).Ok?
    ensures var (paid, left) := RefundEach(h, ledger, asset, deposits, participants).value;
            Balance(paid, asset, who) - Balance(ledger, asset, who) == Entry(deposits, who) - Entry(left, who)
    decreases |participants|
  {
    if participants != [] {
      var p, rest := participants[0], participants[1..];
      if p !in deposits {
        RefundEachPays(h, ledger, asset, deposits, rest, who);
      } else {
        var paid := if deposits[p] > 0 then Transfer(ledger, asset, h.self, p, deposits[p]).value else ledger;
        RefundEachPays(h, paid, asset, deposits - {p}, rest, who);
      }
    }
  }

  /** The stored deposit of `who` falls by what the league's own asset brings them, and rises by what it takes. */
  ghost predicate Follows(s: State, s': State, i: U64, id: U64, who: Address) {
    && i in s.leagues
    && DepositOf(s', id, who) == DepositOf(s, id, who)
         - (if i == id then Balance(s'.ledger, s.leagues[i].league.asset, who)
                            - Balance(s.ledger, s.leagues[i].league.asset, who) else 0)
  }

  lemma RefundPays(h: Platform, s: State, trees: Trees, env: Env, admin: Address, i: U64, ps: seq<Address>,
                   id: U64, who: Address)
    requires Inv(h, s, trees) && who != h.self && DoRefund(h, s, env, admin, i, ps).Ok?
    ensures Follows(s, DoRefund(h, s, env, admin, i, ps).value, i, id, who)
  {
    var p := s.leagues[i];
    assert PartitionOk(h, i, p, trees(i));
    hide PartitionOk, Inv, RequireAdmin;
    RefundEachPays(h, s.ledger, p.league.asset, p.deposits, ps, who);
  }

  lemma ListRefundPays(h: Platform, s: State, trees: Trees, env: Env, call: Call, id: U64, who: Address)
    requires Inv(h, s, trees) && who != h.self && Exec(h, s, env, call).Ok?
    requires call.Refund? || call.ResolveRefund?
    ensures Follows(s, Exec(h, s, env, call).value, call.id, id, who)
  {
    hide Inv, DoRefund, RequireAdmin;
    if call.Refund? {
      RefundPays(h, s, trees, env, call.admin, call.id, call.participants, id, who);
    } else {
      ThawKeeps(h, s, trees, call.id, who);
      RefundPays(h, Thaw(s, call.id), trees, env, call.admin, call.id, call.participants, id, who);
    }
  }

  lemma DepositPays(h: Platform, s: State, env: Env, call: Call, id: U64, who: Address)
    requires h.self !in env.auth && who != h.self && call.Deposit? && Exec(h, s, env, call).Ok?
    requires call.id in s.leagues ==> s.leagues[call.id].league.entryFee >= 0
    ensures Follows(s, Exec(h, s, env, call).value, call.id, id, who)
  {
    hide EnsureOperational;
  }

  lemma ReturnPays(h: Platform, s: State, env: Env, call: Call, id: U64, who: Address)
    requires who != h.self && Exec(h, s, env, call).Ok?
    requires call.EmergencyRefund? || call.RefundDeposit?
    ensures Follows(s, Exec(h, s, env, call).value, call.id, id, who)
  {
    hide RequireAdmin, ReturnDeposit;
    var amount := s.leagues[call.id].deposits[call.who];
    assert ReturnDeposit(h, s, call.id, call.who, amount) == Exec(h, s, env, call);
    hide Exec;
    OneReturnPays(h, s, call.id, call.who, amount, id, who);
  }

  lemma OneReturnPays(h: Platform, s: State, i: U64, p: Address, amount: int, id: U64, who: Address)
    requires who != h.self && i in s.leagues && p in s.leagues[i].deposits && amount == s.leagues[i].deposits[p]
    requires ReturnDeposit(h, s, i, p, amount).Ok?
    ensures Follows(s, ReturnDeposit(h, s, i, p, amount).value, i, id, who)
  {}

  lemma ClaimRefundPays(h: Platform, s: State, env: Env, call: Call, id: U64, who: Address)
    requires who != h.self && call.ClaimRefund? && Exec(h, s, env, call).Ok?
    ensures Follows(s, Exec(h, s, env, call).value, call.id, id, who)
  {}

  lemma OthersLeaveDeposits(h: Platform, s: State, env: Env, call: Call, id: U64, who: Address)
    requires Exec(h, s, env, call).Ok? && !IsDeposit(call) && !IsRefund(call)
    ensures DepositOf(Exec(h, s, env, call).value, id, who) == DepositOf(s, id, who)
  {
    hide Exec, Transfer, RequiredApprovals, Named, RecordPrizes;
    if Administrative(call) {
      AdministrativeKeeps(h, s, env, call);
    } else if WithdrawalCall(call) {
      WithdrawalCallFrame(h, s, env, call);
    } else {
      LeagueEffect(h, s, env, call);
    }
  }

  lemma PaidCalls(h: Platform, s: State, trees: Trees, env: Env, call: Call, id: U64, who: Address)
    requires Inv(h, s, trees) && h.self !in env.auth && who != h.self && Exec(h, s, env, call).Ok?
    requires IsDeposit(call) || IsRefund(call)
    ensures Follows(s, Exec(h, s, env, call).value, call.id, id, who)
  {
    hide Exec, Follows;
    if call.Refund? || call.ResolveRefund? {
      ListRefundPays(h, s, trees, env, call, id, who);
    } else if call.EmergencyRefund? || call.RefundDeposit? {
      ReturnPays(h, s, env, call, id, who);
    } else if call.ClaimRefund? {
      ClaimRefundPays(h, s, env, call, id, who);
    } else {
      if call.id in s.leagues { assert PartitionOk(h, call.id, s.leagues[call.id], trees(call.id)); }
      DepositPays(h, s, env, call, id, who);
    }
  }

  /** One event: the stored deposit follows the tokens, and only deposits and refunds touch it. */
  lemma EntryFollowsTokens(h: Platform, s: State, trees: Trees, event: Event, id: U64, who: Address)
    requires Inv(h, s, trees) && Fair(h, s, trees, event) && who != h.self
    ensures DepositOf(Apply(h, s, event), id, who)
              == DepositOf(s, id, who) + TakenBy(h, s, event, id, who) - ReturnedBy(h, s, event, id, who)
  {
    if Succeeds(h, s, event) {
      var Called(env, call) := event;
      assert h.self !in env.auth;
      hide Inv, Fair, DepositOf, Exec;
      if IsDeposit(call) || IsRefund(call) {
        PaidCalls(h, s, trees, env, call, id, who);
      } else {
        OthersLeaveDeposits(h, s, env, call, id, who);
      }
    }
  }

  /**
   The refund ledger over a whole run. Token movements made outside the contract are not counted:
   only the deposit and refund invocations of this league are.
   */
  lemma {:induction false} RefundLedger(h: Platform, trees: Trees, states: seq<State>, events: seq<Event>,
                                        id: U64, who: Address, n: nat)
    requires Run(h, trees, states, events) && n <= |events| && who != h.self
    ensures PaidIn(h, states, events, id, who, n) - PaidOut(h, states, events, id, who, n)
            == DepositOf(states[n], id, who)
    ensures PaidOut(h, states, events, id, who, n) <= PaidIn(h, states, events, id, who, n)
  {
    hide Run, Inv, Surplus, Apply, Fair, DepositOf, TakenBy, ReturnedBy;
    RunStart(h, trees, states, events);
    RunConserves(h, trees, states, events, who, n);
    EntryNonNegative(h, states[n], trees, id, who);
    if n == 0 {
      NothingDeposited(states[0], id, who);
    } else {
      RefundLedger(h, trees, states, events, id, who, n - 1);
      RunStep(h, trees, states, events, n - 1);
      EntryFollowsTokens(h, states[n - 1], trees, events[n - 1], id, who);
    }
  }

  lemma NothingDeposited(s: State, id: U64, who: Address)
    requires s.leagues == map[]
    ensures DepositOf(s, id, who) == 0
  {}

  lemma EntryNonNegative(h: Platform, s: State, trees: Trees, id: U64, who: Address)
    requires Inv(h, s, trees)
    ensures DepositOf(s, id, who) >= 0
  {
    if id in s.leagues { assert PartitionOk(h, id, s.leagues[id], trees(id)); }
  }

  // ---------- the league's own counters ----------

  /** How far `total_deposited` and `participant_count` are above what the entries say. */
  ghost function TotalGap(s: State, id: U64): int {
    if id in s.leagues then s.leagues[id].league.totalDeposited - Sum(s.leagues[id].deposits) else 0
  }

  ghost function CountGap(s: State, id: U64): int {
    if id in s.leagues then s.leagues[id].league.participantCount - |s.leagues[id].deposits| else 0
  }

  predicate RefundsList(h: Platform, s: State, event: Event, id: U64) {
    Succeeds(h, s, event) && (event.call.Refund? || event.call.ResolveRefund?) && event.call.id == id
  }

  /** What a list refund of the league takes from the escrow, and how many entries it drops. */
  ghost function ListReturned(h: Platform, s: State, event: Event, id: U64): int {
    if RefundsList(h, s, event, id) && id in s.leagues then
      var asset := s.leagues[id].league.asset;
      Balance(s.ledger, asset, h.self) - Balance(Apply(h, s, event).ledger, asset, h.self)
    else 0
  }

  ghost function ListDropped(h: Platform, s: State, event: Event, id: U64): nat {
    if RefundsList(h, s, event, id) && id in s.leagues
    then |s.leagues[id].deposits.Keys * Named(event.call.participants)| else 0
  }

  lemma RefundOutcome(h: Platform, s: State, env: Env, admin: Address, i: U64, ps: seq<Address>)
    requires DoRefund(h, s, env, admin, i, ps).Ok?
    ensures i in s.leagues
    ensures var s', p := DoRefund(h, s, env, admin, i, ps).value, s.leagues[i];
            var outcome := RefundEach(h, s.ledger, p.league.asset, p.deposits, ps);
            && outcome == Ok((s'.ledger, outcome.value.1))
            && s'.leagues == s.leagues[i := Relabelled(p.(deposits := outcome.value.1), Cancelled)]
  {
    hide RefundEach, RequireAdmin;
  }

  lemma GapsAfterRefund(h: Platform, s: State, trees: Trees, env: Env, admin: Address, i: U64, ps: seq<Address>,
                        id: U64)
    requires Inv(h, s, trees) && DoRefund(h, s, env, admin, i, ps).Ok?
    ensures i in s.leagues
    ensures var s', asset := DoRefund(h, s, env, admin, i, ps).value, s.leagues[i].league.asset;
            var paid := Balance(s.ledger, asset, h.self) - Balance(s'.ledger, asset, h.self);
            && paid >= 0
            && TotalGap(s', id) == TotalGap(s, id) + (if i == id then paid else 0)
            && CountGap(s', id) == CountGap(s, id) + (if i == id then |s.leagues[i].deposits.Keys * Named(ps)| else 0)
  {
    RefundOutcome(h, s, env, admin, i, ps);
    var p := s.leagues[i];
    assert PartitionOk(h, i, p, trees(i));
    hide PartitionOk, Inv, DoRefund;
    RefundEachEffect(h, s.ledger, p.league.asset, p.deposits, ps, p.league.asset);
    RefundEachLeaves(h, s.ledger, p.league.asset, p.deposits, ps);
    hide RefundEach, Named;
    DroppedCount(p.deposits, Named(ps));
  }

  lemma DroppedCount(deposits: map<Address, int>, named: set<Address>)
    ensures |deposits - named| == |deposits| - |deposits.Keys * named|
  {
    assert (deposits - named).Keys == deposits.Keys - named;
    assert deposits.Keys == (deposits.Keys - named) + (deposits.Keys * named);
  }

  predicate SingleEntry(call: Call) {
    call.Deposit? || call.EmergencyRefund? || call.RefundDeposit? || call.ClaimRefund?
  }

  lemma EntriesKept(call: Call, p: Partition)
    requires LeagueCall(call) && Suits(call, p) && !call.Refund? && !call.ResolveRefund? && !SingleEntry(call)
    ensures var q := Changed(call, p);
            && q.deposits == p.deposits && q.league.totalDeposited == p.league.totalDeposited
            && q.league.participantCount == p.league.participantCount
  {
    hide RecordPrizes, Named;
  }

  lemma OneZeroed(deposits: map<Address, int>, who: Address)
    requires who in deposits
    ensures Sum(deposits[who := 0]) == Sum(deposits) - deposits[who] && |deposits[who := 0]| == |deposits|
  {
    SumUpdate(deposits, who, 0);
    assert deposits[who := 0].Keys == deposits.Keys;
    assert |deposits[who := 0]| == |deposits[who := 0].Keys| == |deposits|;
  }

  /** Every other change of a league moves the counters and the entries together. */
  lemma GapsKept(call: Call, p: Partition)
    requires LeagueCall(call) && Suits(call, p) && !call.Refund? && !call.ResolveRefund?
    ensures var q := Changed(call, p);
            && q.league.totalDeposited - Sum(q.deposits) == p.league.totalDeposited - Sum(p.deposits)
            && q.league.participantCount - |q.deposits| == p.league.participantCount - |p.deposits|
  {
    hide Sum;
    if SingleEntry(call) {
      hide RecordPrizes, Named;
      match call
      case Deposit(who, _) => OneMoreEntry(p.deposits, who, p.league.entryFee);
      case EmergencyRefund(who, _) => OneReturned(p.deposits, who);
      case RefundDeposit(_, _, who) => OneReturned(p.deposits, who);
      case ClaimRefund(who, _) => OneZeroed(p.deposits, who);
    } else {
      EntriesKept(call, p);
      hide Changed, Suits;
    }
  }

  lemma OneReturned(deposits: map<Address, int>, who: Address)
    requires who in deposits
    ensures Sum(deposits - {who}) == Sum(deposits) - deposits[who] && |deposits - {who}| == |deposits| - 1
  {
    SumSplit(deposits, who);
    assert (deposits - {who}).Keys == deposits.Keys - {who};
  }

  lemma LeagueCallGaps(s: State, s': State, call: Call, id: U64)
    requires LeagueCall(call) && Effect(s, s', call) && !call.Refund? && !call.ResolveRefund?
    ensures TotalGap(s', id) == TotalGap(s, id) && CountGap(s', id) == CountGap(s, id)
  {
    hide Changed, Suits;
    if id in s.leagues && Subject(call) == id && !call.CreateLeague? { GapsKept(call, s.leagues[id]); }
  }

  lemma OtherCallGaps(h: Platform, s: State, env: Env, call: Call, id: U64)
    requires Exec(h, s, env, call).Ok? && !call.Refund? && !call.ResolveRefund?
    ensures var s' := Exec(h, s, env, call).value;
            TotalGap(s', id) == TotalGap(s, id) && CountGap(s', id) == CountGap(s, id)
  {
    hide Exec, Transfer, RequiredApprovals, Effect;
    if Administrative(call) {
      AdministrativeKeeps(h, s, env, call);
    } else if WithdrawalCall(call) {
      WithdrawalCallFrame(h, s, env, call);
    } else {
      LeagueEffect(h, s, env, call);
      LeagueCallGaps(s, Exec(h, s, env, call).value, call, id);
    }
  }

  lemma ListRefundGaps(h: Platform, s: State, trees: Trees, env: Env, call: Call, id: U64)
    requires Inv(h, s, trees) && Exec(h, s, env, call).Ok? && (call.Refund? || call.ResolveRefund?)
    ensures var s', event := Exec(h, s, env, call).value, Called(env, call);
            && ListReturned(h, s, event, id) >= 0
            && TotalGap(s', id) == TotalGap(s, id) + ListReturned(h, s, event, id)
            && CountGap(s', id) == CountGap(s, id) + ListDropped(h, s, event, id)
  {
    hide Inv, DoRefund, Named, Thaw, TotalGap, CountGap, RequireAdmin;
    if call.Refund? {
      GapsAfterRefund(h, s, trees, env, call.admin, call.id, call.participants, id);
    } else {
      GapsThawed(h, s, trees, call.id, id);
      GapsAfterRefund(h, Thaw(s, call.id), trees, env, call.admin, call.id, call.participants, id);
    }
  }

  /** One event: only a list refund opens the gaps, by what it pays and by the entries it drops. */
  lemma GapStep(h: Platform, s: State, trees: Trees, event: Event, id: U64)
    requires Inv(h, s, trees)
    ensures ListReturned(h, s, event, id) >= 0
    ensures TotalGap(Apply(h, s, event), id) == TotalGap(s, id) + ListReturned(h, s, event, id)
    ensures CountGap(Apply(h, s, event), id) == CountGap(s, id) + ListDropped(h, s, event, id)
  {
    if Succeeds(h, s, event) {
      var Called(env, call) := event;
      hide Inv, Exec, Named;
      if call.Refund? || call.ResolveRefund? {
        ListRefundGaps(h, s, trees, env, call, id);
      } else {
        OtherCallGaps(h, s, env, call, id);
      }
    }
  }

  lemma GapsThawed(h: Platform, s: State, trees: Trees, i: U64, id: U64)
    requires Inv(h, s, trees)
    ensures var s' := Thaw(s, i);
            && Inv(h, s', trees) && s'.ledger == s.ledger && s'.leagues.Keys == s.leagues.Keys
            && TotalGap(s', id) == TotalGap(s, id) && CountGap(s', id) == CountGap(s, id)
            && (i in s.leagues ==>
                  s'.leagues[i].deposits == s.leagues[i].deposits && s'.leagues[i].league == s.leagues[i].league)
  {
    hide Inv, Surplus;
    ThawKeeps(h, s, trees, i, h.self);
    if id in s.leagues { assert Thaw(s, i).leagues[id].deposits == s.leagues[id].deposits; }
  }

  ghost function AllReturned(h: Platform, states: seq<State>, events: seq<Event>, id: U64, n: nat): int
    requires n <= |events| < |states|
  {
    if n == 0 then 0
    else AllReturned(h, states, events, id, n - 1) + ListReturned(h, states[n - 1], events[n - 1], id)
  }

  ghost function AllDropped(h: Platform, states: seq<State>, events: seq<Event>, id: U64, n: nat): nat
    requires n <= |events| < |states|
  {
    if n == 0 then 0
    else AllDropped(h, states, events, id, n - 1) + ListDropped(h, states[n - 1], events[n - 1], id)
  }

  /** Over a run the gaps are exactly what list refunds of the league have returned and dropped. */
  lemma {:induction false} GapsAreListRefunds(h: Platform, trees: Trees, states: seq<State>, events: seq<Event>,
                                              id: U64, n: nat)
    requires Run(h, trees, states, events) && n <= |events|
    ensures TotalGap(states[n], id) == AllReturned(h, states, events, id, n)
    ensures CountGap(states[n], id) == AllDropped(h, states, events, id, n)
    ensures AllReturned(h, states, events, id, n) >= 0
    ensures AllReturned(h, states, events, id, n) == 0
            <==> forall i :: 0 <= i < n ==> ListReturned(h, states[i], events[i], id) == 0
    ensures AllDropped(h, states, events, id, n) == 0
            <==> forall i :: 0 <= i < n ==> ListDropped(h, states[i], events[i], id) == 0
  {
    hide Run, Inv, Fair, Apply, TotalGap, CountGap, ListReturned, ListDropped;
    RunStart(h, trees, states, events);
    if n == 0 {
      NoGaps(states[0], id);
    } else {
      GapsAreListRefunds(h, trees, states, events, id, n - 1);
      RunStep(h, trees, states, events, n - 1);
      GapStep(h, states[n - 1], trees, events[n - 1], id);
    }
  }

  lemma NoGaps(s: State, id: U64)
    requires s.leagues == map[]
    ensures TotalGap(s, id) == 0 && CountGap(s, id) == 0
  {}

  /**
   The league's own counters against its stored deposits, in every reachable state: each is exact as long
   as no list refund has returned, or dropped, anything, and no refund ever takes them below zero.
   */
  lemma CountersMatch(h: Platform, trees: Trees, states: seq<State>, events: seq<Event>, id: U64, n: nat)
    requires Run(h, trees, states, events) && n <= |events| && id in states[n].leagues
    ensures var p := states[n].leagues[id];
            && Sum(p.deposits) <= p.league.totalDeposited && |p.deposits| <= p.league.participantCount
            && (p.league.totalDeposited == Sum(p.deposits)
                <==> forall i :: 0 <= i < n ==> ListReturned(h, states[i], events[i], id) == 0)
            && (p.league.participantCount == |p.deposits|
                <==> forall i :: 0 <= i < n ==> ListDropped(h, states[i], events[i], id) == 0)
            && (p.league.status != Cancelled ==>
                  p.league.totalDeposited == Sum(p.deposits) && p.league.participantCount == |p.deposits|)
            && (forall who :: who in p.deposits && p.league.status != Settled ==>
                  CheckedU32(p.league.participantCount - 1).Ok?
                  && CheckedI128(p.league.totalDeposited - p.deposits[who]).Ok?)
  {
    hide Run, ListReturned, ListDropped;
    RunConserves(h, trees, states, events, h.self, n);
    GapsAreListRefunds(h, trees, states, events, id, n);
    RunStart(h, trees, states, events);
    CountersOf(h, trees, states[n], id);
    hide Inv;
  }

  lemma CountersOf(h: Platform, trees: Trees, s: State, id: U64)
    requires Inv(h, s, trees) && id in s.leagues
    ensures var p := s.leagues[id];
            && Sum(p.deposits) <= p.league.totalDeposited && |p.deposits| <= p.league.participantCount
            && (p.league.status != Cancelled ==>
                  p.league.totalDeposited == Sum(p.deposits) && p.league.participantCount == |p.deposits|)
            && (forall who :: who in p.deposits && p.league.status != Settled ==>
                  CheckedU32(p.league.participantCount - 1).Ok?
                  && CheckedI128(p.league.totalDeposited - p.deposits[who]).Ok?)
  {
    var p := s.leagues[id];
    assert PartitionOk(h, id, p, trees(id));
    hide Inv;
    forall who | who in p.deposits && p.league.status != Settled
      ensures CheckedU32(p.league.participantCount - 1).Ok?
              && CheckedI128(p.league.totalDeposited - p.deposits[who]).Ok?
    {
      ReturnedPartition(h, id, p, trees(id), who);
    }
  }
}
