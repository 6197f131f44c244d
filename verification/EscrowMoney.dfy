/** Where the money is: what the escrow owes, what it holds, and what every invocation does to both. */
module EscrowMoney {
  import opened Wrappers
  import opened Host
  import opened Sums
  import opened PrizeSplit
  import opened Commitments
  import opened EscrowModel

  /** The off-chain prize tree that a Merkle settlement of each league would commit to. */
  type Trees = U64 -> Tree

  /** One step of the world: an invocation, or token movements that do not involve the contract. */
  datatype Event = Called(env: Env, call: Call) | Elsewhere(ledger: Ledger)

  /** A failing invocation is rolled back by the host. */
  function Apply(h: Platform, s: State, event: Event): State {
    match event
    case Called(env, call) => (match Exec(h, s, env, call) case Ok(after) => after case Err(_) => s)
    case Elsewhere(ledger) => s.(ledger := ledger)
  }

  predicate Succeeds(h: Platform, s: State, event: Event) {
    event.Called? && Exec(h, s, event.env, event.call).Ok?
  }

  // ---------- obligations ----------

  ghost function Unclaimed(t: Tree, claimed: set<Address>): map<Address, int> {
    map w | w in Entitlements(t) && w !in claimed :: Entitlements(t)[w]
  }

  /** Deposits while a league is open or cancelled; recorded and committed prizes once it is settled. */
  ghost function Owed(p: Partition, t: Tree): int {
    if p.league.status != Settled then Sum(p.deposits)
    else Sum(p.claimable) + (if p.root.Some? then Sum(Unclaimed(t, p.claimed)) else 0)
  }

  ghost function OwedByLeague(leagues: map<U64, Partition>, trees: Trees, asset: Address): map<U64, int> {
    map id | id in leagues && leagues[id].league.asset == asset :: Owed(leagues[id], trees(id))
  }

  ghost function TotalOwed(s: State, trees: Trees, asset: Address): int {
    Sum(OwedByLeague(s.leagues, trees, asset))
  }

  ghost function ExecutedWithdrawals(ws: map<U64, Withdrawal>, asset: Address): map<U64, int> {
    map id | id in ws && ws[id].executed && ws[id].asset == asset :: ws[id].amount
  }

  ghost function Withdrawn(s: State, asset: Address): int {
    Sum(ExecutedWithdrawals(s.withdrawals, asset))
  }

  /** Holdings plus executed fee withdrawals, less everything owed. */
  ghost function Surplus(h: Platform, s: State, trees: Trees, asset: Address): int {
    Balance(s.ledger, asset, h.self) + Withdrawn(s, asset) - TotalOwed(s, trees, asset)
  }

  // ---------- per-league invariant ----------

  ghost predicate TreeOk(t: Tree) {
    DistinctWinners(t) && forall w :: w in Entitlements(t) ==> Entitlements(t)[w] >= 0
  }

  ghost predicate PartitionOk(h: Platform, id: U64, p: Partition, t: Tree) {
    && p.league.status != Active
    && p.league.entryFee >= 0
    && h.self !in p.deposits
    && (forall w :: w in p.deposits ==> p.deposits[w] >= 0)
    && Sum(p.deposits) <= p.league.totalDeposited
    && |p.deposits| <= p.league.participantCount
    && p.league.totalDeposited <= I128_MAX && p.league.participantCount <= U32_MAX
    && (p.league.status != Cancelled ==>
          p.league.totalDeposited == Sum(p.deposits) && p.league.participantCount == |p.deposits|)
    && (p.claimable != map[] ==> p.league.status == Settled)
    && (forall w :: w in p.claimable ==> p.claimable[w] > 0)
    && (p.frozen ==> p.league.status != Settled)
    && (p.claimed != {} ==> p.root.Some?)
    && (p.root.Some? ==> p.league.status == Settled && p.claimable == map[]
                         && TreeOk(t) && p.root.value == Root(h.sha256, id, t))
  }

  ghost predicate Inv(h: Platform, s: State, trees: Trees) {
    && (forall id: U64 :: id in s.leagues ==> PartitionOk(h, id, s.leagues[id], trees(id)))
    && (forall id: U64 :: id in s.withdrawals ==> s.withdrawals[id].amount > 0)
  }

  /**
   What is assumed of an event: nobody else moves the escrow's tokens, the contract never signs for itself,
   roots that are accepted commit to well-formed trees, and claims that are accepted meet no hash collision.
   Nothing is assumed of a call that fails.
   */
  ghost predicate Fair(h: Platform, s: State, trees: Trees, event: Event) {
    match event
    case Elsewhere(ledger) => forall asset :: Balance(ledger, asset, h.self) >= Balance(s.ledger, asset, h.self)
    case Called(env, call) => Exec(h, s, env, call).Ok? ==> FairCall(h, trees, env, call)
  }

  ghost predicate FairCall(h: Platform, trees: Trees, env: Env, call: Call) {
    && h.self !in env.auth
    && (call.SettleMerkle? ==> CommitsToTree(h, call.id, trees(call.id), call.root, call.pool))
    && (call.ClaimMerkle? ==> NoCollision(h.sha256, ClaimInputs(h.sha256, call.id, call.prize, call.branch),
                                          TreeInputs(h.sha256, call.id, trees(call.id))))
  }

  ghost predicate CommitsToTree(h: Platform, id: U64, t: Tree, root: Hash, pool: int) {
    TreeOk(t) && root == Root(h.sha256, id, t) && Sum(Entitlements(t)) == pool
  }

  /** No one is named twice for a positive amount. */
  ghost predicate DistinctPayees(winners: seq<WinnerPayout>) {
    forall i, j :: 0 <= i < j < |winners| && winners[i].amount > 0 && winners[j].amount > 0 ==>
      winners[i].winner != winners[j].winner
  }

  ghost predicate PayeesOutside(winners: seq<WinnerPayout>, known: set<Address>) {
    forall i :: 0 <= i < |winners| && winners[i].amount > 0 ==> winners[i].winner !in known
  }

  // ---------- money that arrives in, or stays with, the escrow without being owed ----------

  function Kept(h: Platform, payee: Address, amount: int): int {
    if payee == h.self && amount > 0 then amount else 0
  }

  ghost function SettleStray(h: Platform, a: Settlement): int {
    Kept(h, a.treasury, a.fee - a.cut)
    + (if a.affiliate.Some? then Kept(h, a.affiliate.value, a.cut) else a.cut)
    + Total(Amounts(a.winners)) - Sum(RecordPrizes(map[], a.winners))
  }

  /** The settlements that leave nothing behind, told from their arguments. */
  ghost predicate TightSettlement(h: Platform, a: Settlement) {
    && (a.treasury != h.self || a.fee == a.cut)
    && (a.cut > 0 ==> a.affiliate.Some? && a.affiliate.value != h.self)
    && DistinctPayees(a.winners)
  }

  predicate InAsset(s: State, id: U64, asset: Address) {
    id in s.leagues && s.leagues[id].league.asset == asset
  }

  /** The part of an event that raises the surplus of an asset. */
  ghost function Stray(h: Platform, s: State, event: Event, asset: Address): int {
    match event
    case Elsewhere(ledger) => Balance(ledger, asset, h.self) - Balance(s.ledger, asset, h.self)
    case Called(env, call) =>
      if Exec(h, s, env, call).Err? then 0
      else match call
        case Settle(a) => if InAsset(s, a.id, asset) then SettleStray(h, a) else 0
        case ResolvePayout(admin, id, winners, treasury, fee) =>
          if InAsset(s, id, asset) then SettleStray(h, PlainSettlement(admin, id, winners, treasury, fee)) else 0
        case SettleMerkle(_, id, _, _, treasury, fee) => if InAsset(s, id, asset) then Kept(h, treasury, fee) else 0
        case ExecuteWithdrawal(_, id) =>
          if id in s.withdrawals && s.withdrawals[id].asset == asset
          then Kept(h, s.withdrawals[id].destination, s.withdrawals[id].amount) else 0
        case _ => 0
  }

  // ---------- bookkeeping lemmas ----------

  /** Changing one league changes the total by that league's own difference. */
  lemma OwedAfterUpdate(leagues: map<U64, Partition>, trees: Trees, asset: Address, id: U64, p: Partition)
    requires id in leagues ==> leagues[id].league.asset == p.league.asset
    ensures var before := if id in leagues then Owed(leagues[id], trees(id)) else 0;
            Sum(OwedByLeague(leagues[id := p], trees, asset))
              == Sum(OwedByLeague(leagues, trees, asset))
                 + (if p.league.asset == asset then Owed(p, trees(id)) - before else 0)
  {
    var was, now := OwedByLeague(leagues, trees, asset), OwedByLeague(leagues[id := p], trees, asset);
    if p.league.asset == asset {
      assert now == was[id := Owed(p, trees(id))];
      SumUpdate(was, id, Owed(p, trees(id)));
    } else {
      assert now == was;
    }
  }

  /** An update of one league and the ledger: the surplus moves by holdings less that league's obligations. */
  lemma LeagueStep(h: Platform, s: State, s': State, trees: Trees, asset: Address, id: U64, p: Partition)
    requires Inv(h, s, trees)
    requires s'.leagues == s.leagues[id := p] && s'.withdrawals == s.withdrawals
    requires id in s.leagues ==> s.leagues[id].league.asset == p.league.asset
    requires PartitionOk(h, id, p, trees(id))
    ensures Inv(h, s', trees)
    ensures var before := if id in s.leagues then Owed(s.leagues[id], trees(id)) else 0;
            Surplus(h, s', trees, asset) == Surplus(h, s, trees, asset)
              + Balance(s'.ledger, asset, h.self) - Balance(s.ledger, asset, h.self)
              - (if p.league.asset == asset then Owed(p, trees(id)) - before else 0)
  {
    OwedAfterUpdate(s.leagues, trees, asset, id, p);
  }

  /** Recorded prizes add up to the list exactly when no payee is named twice or had a prize before. */
  lemma {:induction false} RecordPrizesSum(claimable: map<Address, int>, winners: seq<WinnerPayout>)
    requires forall w :: w in claimable ==> claimable[w] > 0
    requires forall i :: 0 <= i < |winners| ==> winners[i].amount >= 0
    ensures forall w :: w in RecordPrizes(claimable, winners) ==> RecordPrizes(claimable, winners)[w] > 0
    ensures Sum(RecordPrizes(claimable, winners)) <= Sum(claimable) + Total(Amounts(winners))
    ensures Sum(RecordPrizes(claimable, winners)) == Sum(claimable) + Total(Amounts(winners))
            <==> DistinctPayees(winners) && PayeesOutside(winners, claimable.Keys)
    decreases |winners|
  {
    if winners != [] {
      var w, rest := winners[0], winners[1..];
      var next := if w.amount > 0 then claimable[w.winner := w.amount] else claimable;
      assert Amounts(winners)[1..] == Amounts(rest);
      SumUpdate(claimable, w.winner, w.amount);
      RecordPrizesSum(next, rest);
      PayeesFirst(winners, claimable.Keys, next.Keys);
      hide DistinctPayees, PayeesOutside, Amounts;
    }
  }

  /** What a list means for one name: the amount of the last positive entry, and 0 without one. */
  function PrizeOf(winners: seq<WinnerPayout>, who: Address): int {
    if winners == [] then 0
    else
      var last := winners[|winners| - 1];
      if last.winner == who && last.amount > 0 then last.amount else PrizeOf(winners[..|winners| - 1], who)
  }

  lemma {:induction false} PrizeOfAt(winners: seq<WinnerPayout>, who: Address, i: int)
    requires -1 <= i < |winners| && (i >= 0 ==> winners[i].winner == who && winners[i].amount > 0)
    requires forall j :: i < j < |winners| ==> winners[j].winner != who || winners[j].amount <= 0
    ensures PrizeOf(winners, who) == if i >= 0 then winners[i].amount else 0
  {
    if i < |winners| - 1 { PrizeOfAt(winners[..|winners| - 1], who, i); }
  }

  /** With no payee named twice every positive entry is what its winner gets. */
  lemma PrizeOfEach(winners: seq<WinnerPayout>, i: nat)
    requires DistinctPayees(winners) && i < |winners| && winners[i].amount > 0
    ensures PrizeOf(winners, winners[i].winner) == winners[i].amount
  {
    PrizeOfAt(winners, winners[i].winner, i);
  }

  lemma {:induction false} PrizeOfFront(winners: seq<WinnerPayout>, who: Address)
    requires winners != []
    ensures var rest := PrizeOf(winners[1..], who);
            PrizeOf(winners, who)
              == if rest > 0 then rest
                 else if winners[0].winner == who && winners[0].amount > 0 then winners[0].amount else 0
    ensures PrizeOf(winners[1..], who) >= 0
  {
    var n := |winners| - 1;
    if n == 0 {
      assert winners[..n] == [] && winners[1..] == [];
    } else {
      assert winners[1..][..n - 1] == winners[..n][1..] && winners[1..][n - 1] == winners[n];
      PrizeOfFront(winners[..n], who);
    }
  }

  /** Each name ends up with its prize from the list, and keeps what it had if there is none. */
  lemma {:induction false} RecordedPrize(claimable: map<Address, int>, winners: seq<WinnerPayout>, who: Address)
    ensures var recorded, prize := RecordPrizes(claimable, winners), PrizeOf(winners, who);
            if prize > 0 then who in recorded && recorded[who] == prize
            else (who in recorded <==> who in claimable) && (who in recorded ==> recorded[who] == claimable[who])
    decreases |winners|
  {
    if winners != [] {
      var w := winners[0];
      RecordedPrize(if w.amount > 0 then claimable[w.winner := w.amount] else claimable, winners[1..], who);
      PrizeOfFront(winners, who);
    }
  }

  lemma PayeesFirst(winners: seq<WinnerPayout>, known: set<Address>, next: set<Address>)
    requires winners != [] && next == known + (if winners[0].amount > 0 then {winners[0].winner} else {})
    ensures DistinctPayees(winners) && PayeesOutside(winners, known)
            <==> DistinctPayees(winners[1..]) && PayeesOutside(winners[1..], next)
                 && (winners[0].amount > 0 ==> winners[0].winner !in known)
  {
    var rest := winners[1..];
    if DistinctPayees(rest) && PayeesOutside(rest, next) && (winners[0].amount > 0 ==> winners[0].winner !in known) {
      forall i | 0 <= i < |winners| && winners[i].amount > 0 ensures winners[i].winner !in known {
        if i > 0 { assert rest[i - 1] == winners[i]; }
      }
      forall i, j | 0 <= i < j < |winners| && winners[i].amount > 0 && winners[j].amount > 0
        ensures winners[i].winner != winners[j].winner
      {
        assert rest[j - 1] == winners[j];
        if i > 0 { assert rest[i - 1] == winners[i]; }
      }
    }
  }

  // ---------- one lemma per money-moving entry point ----------

  lemma OneMoreEntry(deposits: map<Address, int>, who: Address, fee: int)
    requires who !in deposits
    ensures Sum(deposits[who := fee]) == Sum(deposits) + fee && |deposits[who := fee]| == |deposits| + 1
  {
    SumUpdate(deposits, who, fee);
    assert deposits[who := fee].Keys == deposits.Keys + {who};
  }

  lemma DepositedPartition(h: Platform, id: U64, p: Partition, t: Tree, who: Address)
    requires PartitionOk(h, id, p, t) && p.league.status == Upcoming
    requires who !in p.deposits && who != h.self
    requires p.league.totalDeposited + p.league.entryFee <= I128_MAX && p.league.participantCount < U32_MAX
    ensures var fee := p.league.entryFee;
            var p' := p.(deposits := p.deposits[who := fee],
                         league := p.league.(totalDeposited := p.league.totalDeposited + fee,
                                             participantCount := p.league.participantCount + 1));
            PartitionOk(h, id, p', t) && Owed(p', t) == Owed(p, t) + fee
  {
    hide Sum, TreeOk, Root, Unclaimed;
    OneMoreEntry(p.deposits, who, p.league.entryFee);
  }

  lemma DepositKeeps(h: Platform, s: State, trees: Trees, env: Env, who: Address, id: U64, asset: Address)
    requires Inv(h, s, trees) && h.self !in env.auth && DoDeposit(h, s, env, who, id).Ok?
    ensures var s' := DoDeposit(h, s, env, who, id).value;
            Inv(h, s', trees) && Surplus(h, s', trees, asset) == Surplus(h, s, trees, asset)
  {
    hide PartitionOk, Surplus, Owed, EnsureOperational;
    var s', p := DoDeposit(h, s, env, who, id).value, s.leagues[id];
    assert PartitionOk(h, id, p, trees(id));
    DepositedPartition(h, id, p, trees(id), who);
    EntryFeeNotNegative(h, id, p, trees(id));
    assert Balance(s'.ledger, asset, h.self) == Balance(s.ledger, asset, h.self)
             + (if asset == p.league.asset then p.league.entryFee else 0);
    hide DoDeposit;
    LeagueStep(h, s, s', trees, asset, id, s'.leagues[id]);
  }

  lemma EntryFeeNotNegative(h: Platform, id: U64, p: Partition, t: Tree)
    requires PartitionOk(h, id, p, t)
    ensures p.league.entryFee >= 0
  {}

  lemma ReturnedPartition(h: Platform, id: U64, p: Partition, t: Tree, who: Address)
    requires PartitionOk(h, id, p, t) && p.league.status != Settled && who in p.deposits
    ensures var amount := p.deposits[who];
            var p' := p.(deposits := p.deposits - {who},
                         league := p.league.(totalDeposited := p.league.totalDeposited - amount,
                                             participantCount := p.league.participantCount - 1));
            PartitionOk(h, id, p', t) && Owed(p', t) == Owed(p, t) - amount
    ensures who != h.self && p.league.participantCount >= 1 && p.league.totalDeposited >= p.deposits[who] >= 0
  {
    SumSplit(p.deposits, who);
    SumNonNegative(p.deposits);
    assert (p.deposits - {who}).Keys == p.deposits.Keys - {who};
  }

  lemma ReturnDepositKeeps(h: Platform, s: State, trees: Trees, id: U64, who: Address, asset: Address)
    requires Inv(h, s, trees) && id in s.leagues && s.leagues[id].league.status != Settled
    requires who in s.leagues[id].deposits
    requires ReturnDeposit(h, s, id, who, s.leagues[id].deposits[who]).Ok?
    ensures var s' := ReturnDeposit(h, s, id, who, s.leagues[id].deposits[who]).value;
            Inv(h, s', trees) && Surplus(h, s', trees, asset) == Surplus(h, s, trees, asset)
  {
    hide PartitionOk, Surplus;
    var s' := ReturnDeposit(h, s, id, who, s.leagues[id].deposits[who]).value;
    ReturnedPartition(h, id, s.leagues[id], trees(id), who);
    LeagueStep(h, s, s', trees, asset, id, s'.leagues[id]);
  }

  lemma {:induction false} RefundEachEffect(h: Platform, ledger: Ledger, asset: Address, deposits: map<Address, int>,
                                            participants: seq<Address>, a: Address)
    requires h.self !in deposits && forall w :: w in deposits ==> deposits[w] >= 0
    requires RefundEach(h, ledger, asset, deposits, participants).Ok?
    ensures var (paid, left) := RefundEach(h, ledger, asset, deposits, participants).value;
            && left.Keys <= deposits.Keys && (forall w :: w in left ==> left[w] == deposits[w])
            && Balance(paid, a, h.self) == Balance(ledger, a, h.self)
                 - (if a == asset then Sum(deposits) - Sum(left) else 0)
            && Sum(left) <= Sum(deposits) && |left| <= |deposits|
    decreases |participants|
  {
    if participants != [] {
      var who, rest := participants[0], participants[1..];
      if who !in deposits {
        RefundEachEffect(h, ledger, asset, deposits, rest, a);
      } else {
        var paid := if deposits[who] > 0 then Transfer(ledger, asset, h.self, who, deposits[who]).value else ledger;
        SumSplit(deposits, who);
        assert (deposits - {who}).Keys == deposits.Keys - {who};
        RefundEachEffect(h, paid, asset, deposits - {who}, rest, a);
      }
    }
  }

  lemma RefundedPartition(h: Platform, id: U64, p: Partition, t: Tree, ledger: Ledger, participants: seq<Address>,
                          asset: Address)
    requires PartitionOk(h, id, p, t) && p.league.status != Settled
    requires RefundEach(h, ledger, p.league.asset, p.deposits, participants).Ok?
    ensures var (paid, left) := RefundEach(h, ledger, p.league.asset, p.deposits, participants).value;
            var p' := p.(deposits := left, league := p.league.(status := Cancelled));
            && PartitionOk(h, id, p', t)
            && Balance(paid, asset, h.self) == Balance(ledger, asset, h.self)
                 - (if asset == p.league.asset then Owed(p, t) - Owed(p', t) else 0)
  {
    RefundEachEffect(h, ledger, p.league.asset, p.deposits, participants, asset);
  }

  lemma RefundKeeps(h: Platform, s: State, trees: Trees, env: Env, admin: Address, id: U64, ps: seq<Address>,
                    asset: Address)
    requires Inv(h, s, trees) && DoRefund(h, s, env, admin, id, ps).Ok?
    ensures var s' := DoRefund(h, s, env, admin, id, ps).value;
            Inv(h, s', trees) && Surplus(h, s', trees, asset) == Surplus(h, s, trees, asset)
  {
    hide PartitionOk, Surplus;
    var s' := DoRefund(h, s, env, admin, id, ps).value;
    RefundedPartition(h, id, s.leagues[id], trees(id), s.ledger, ps, asset);
    LeagueStep(h, s, s', trees, asset, id, s'.leagues[id]);
  }

  lemma ZeroedPartition(h: Platform, id: U64, p: Partition, t: Tree, who: Address)
    requires PartitionOk(h, id, p, t) && p.league.status == Cancelled && who in p.deposits
    ensures var p' := p.(deposits := p.deposits[who := 0],
                         league := p.league.(totalDeposited := p.league.totalDeposited - p.deposits[who]));
            PartitionOk(h, id, p', t) && Owed(p', t) == Owed(p, t) - p.deposits[who]
  {
    SumUpdate(p.deposits, who, 0);
    assert p.deposits[who := 0].Keys == p.deposits.Keys;
  }

  lemma ClaimRefundKeeps(h: Platform, s: State, trees: Trees, env: Env, who: Address, id: U64, asset: Address)
    requires Inv(h, s, trees) && DoClaimRefund(h, s, env, who, id).Ok?
    ensures var s' := DoClaimRefund(h, s, env, who, id).value;
            Inv(h, s', trees) && Surplus(h, s', trees, asset) == Surplus(h, s, trees, asset)
  {
    hide PartitionOk, Surplus;
    var s' := DoClaimRefund(h, s, env, who, id).value;
    ZeroedPartition(h, id, s.leagues[id], trees(id), who);
    LeagueStep(h, s, s', trees, asset, id, s'.leagues[id]);
  }

  lemma PaidPartition(h: Platform, id: U64, p: Partition, t: Tree, who: Address)
    requires PartitionOk(h, id, p, t) && who in p.claimable
    ensures var p' := p.(claimable := p.claimable - {who});
            && p.league.status == Settled
            && PartitionOk(h, id, p', t) && Owed(p', t) == Owed(p, t) - p.claimable[who]
  {
    SumSplit(p.claimable, who);
  }

  lemma ClaimPrizeKeeps(h: Platform, s: State, trees: Trees, env: Env, who: Address, id: U64, asset: Address)
    requires Inv(h, s, trees) && h.self !in env.auth && DoClaimPrize(h, s, env, who, id).Ok?
    ensures var s' := DoClaimPrize(h, s, env, who, id).value;
            Inv(h, s', trees) && Surplus(h, s', trees, asset) == Surplus(h, s, trees, asset)
  {
    hide PartitionOk, Surplus;
    var s' := DoClaimPrize(h, s, env, who, id).value;
    PaidPartition(h, id, s.leagues[id], trees(id), who);
    LeagueStep(h, s, s', trees, asset, id, s'.leagues[id]);
  }

  /** Fees leave the escrow unless the payee is the escrow itself or there is no affiliate. */
  lemma PayFeesEffect(h: Platform, ledger: Ledger, asset: Address, a: Settlement, b: Address)
    requires 0 <= a.cut <= a.fee && PayFees(h, ledger, asset, a).Ok?
    ensures Balance(PayFees(h, ledger, asset, a).value, b, h.self) == Balance(ledger, b, h.self)
              - (if b == asset then a.fee - Kept(h, a.treasury, a.fee - a.cut)
                                    - (if a.affiliate.Some? then Kept(h, a.affiliate.value, a.cut) else a.cut)
                 else 0)
  {}

  lemma TotalNotNegative(h: Platform, id: U64, p: Partition, t: Tree)
    requires PartitionOk(h, id, p, t)
    ensures p.league.totalDeposited >= 0
  {
    SumNonNegative(p.deposits);
  }

  /** The guards alone: who may settle is left aside. */
  lemma SettleGuards(h: Platform, s: State, env: Env, a: Settlement)
    requires DoSettle(h, s, env, a).Ok?
    ensures a.id in s.leagues && !s.leagues[a.id].Closed() && !s.leagues[a.id].frozen
    ensures var total := s.leagues[a.id].league.totalDeposited;
            && CheckFees(total, a.fee, a.cut).Ok?
            && CheckWinners(total, a.fee, Amounts(a.winners), a.bps).Ok?
    ensures PayFees(h, s.ledger, s.leagues[a.id].league.asset, a).Ok?
    ensures var s', p := DoSettle(h, s, env, a).value, s.leagues[a.id];
            && s'.leagues == s.leagues[a.id := p.(claimable := RecordPrizes(p.claimable, a.winners),
                                                  league := p.league.(status := Settled))]
            && s'.ledger == PayFees(h, s.ledger, p.league.asset, a).value
            && s'.withdrawals == s.withdrawals
  {}

  /** The caps, truncation and all: a twentieth of the deposits and a fifth of the fee. */
  lemma FeeCaps(total: nat, fee: I128, cut: I128)
    ensures CheckFees(total, fee, cut).Ok?
            <==> 0 <= cut && 5 * cut <= fee && 20 * fee <= total && total * 500 <= I128_MAX
  {}

  /** What an accepted settlement has established: the caps hold and prizes plus fee are the deposits. */
  lemma SettlementFacts(total: nat, a: Settlement)
    requires CheckFees(total, a.fee, a.cut).Ok?
    requires CheckWinners(total, a.fee, Amounts(a.winners), a.bps).Ok?
    ensures CheckWinners(total, a.fee, Amounts(a.winners), a.bps).value == total
    ensures 0 <= a.cut && 5 * a.cut <= a.fee && 20 * a.fee <= total
    ensures a.fee + Total(Amounts(a.winners)) == total
    ensures forall i :: 0 <= i < |a.winners| ==> a.winners[i].amount >= 0
  {
    FeeCaps(total, a.fee, a.cut);
    var amounts := Amounts(a.winners);
    WinnersInRange(total, a.fee, amounts, a.bps);
    AcceptedWinnersSumToPool(total - a.fee, amounts, a.bps);
    forall i | 0 <= i < |a.winners| ensures a.winners[i].amount >= 0 { assert amounts[i] >= 0; }
  }

  lemma SettledPartition(h: Platform, id: U64, p: Partition, t: Tree, winners: seq<WinnerPayout>)
    requires PartitionOk(h, id, p, t) && !p.Closed() && !p.frozen
    requires forall i :: 0 <= i < |winners| ==> winners[i].amount >= 0
    ensures var prizes := RecordPrizes(p.claimable, winners);
            var p' := p.(claimable := prizes, league := p.league.(status := Settled));
            && p.claimable == map[]
            && PartitionOk(h, id, p', t)
            && Owed(p', t) == Owed(p, t) - p.league.totalDeposited + Sum(prizes)
            && Sum(prizes) <= Total(Amounts(winners))
  {
    RecordPrizesSum(map[], winners);
  }

  /** One settlement on the books of its league: holdings fall as obligations do, but for the stray money. */
  lemma SettledBooks(h: Platform, p: Partition, t: Tree, a: Settlement, ledger: Ledger, asset: Address)
    requires PartitionOk(h, a.id, p, t) && !p.Closed() && !p.frozen
    requires CheckFees(p.league.totalDeposited, a.fee, a.cut).Ok?
    requires CheckWinners(p.league.totalDeposited, a.fee, Amounts(a.winners), a.bps).Ok?
    requires PayFees(h, ledger, p.league.asset, a).Ok?
    ensures var p' := p.(claimable := RecordPrizes(p.claimable, a.winners), league := p.league.(status := Settled));
            && PartitionOk(h, a.id, p', t)
            && Balance(PayFees(h, ledger, p.league.asset, a).value, asset, h.self) == Balance(ledger, asset, h.self)
                 + (if asset == p.league.asset then Owed(p', t) - Owed(p, t) + SettleStray(h, a) else 0)
    ensures SettleStray(h, a) >= 0
    ensures SettleStray(h, a) == 0 <==> TightSettlement(h, a)
  {
    hide DistinctPayees, PartitionOk, CheckFees, CheckWinners, PayFees;
    TotalNotNegative(h, a.id, p, t);
    SettlementFacts(p.league.totalDeposited, a);
    SettledPartition(h, a.id, p, t, a.winners);
    RecordPrizesSum(map[], a.winners);
    assert Sum<Address>(map[]) == 0 && PayeesOutside(a.winners, {});
    PayFeesEffect(h, ledger, p.league.asset, a, asset);
  }

  lemma SettleKeeps(h: Platform, s: State, trees: Trees, env: Env, a: Settlement, asset: Address)
    requires Inv(h, s, trees) && DoSettle(h, s, env, a).Ok?
    ensures var s' := DoSettle(h, s, env, a).value;
            && Inv(h, s', trees)
            && Surplus(h, s', trees, asset) == Surplus(h, s, trees, asset)
                 + (if InAsset(s, a.id, asset) then SettleStray(h, a) else 0)
            && SettleStray(h, a) >= 0
  {
    hide PartitionOk, Surplus, SettleStray;
    SettleGuards(h, s, env, a);
    hide DoSettle, CheckFees, CheckWinners, PayFees;
    var s', p := DoSettle(h, s, env, a).value, s.leagues[a.id];
    SettledBooks(h, p, trees(a.id), a, s.ledger, asset);
    LeagueStep(h, s, s', trees, asset, a.id, s'.leagues[a.id]);
  }

  lemma CommittedOk(h: Platform, id: U64, p: Partition, t: Tree, root: Hash, pool: int)
    requires PartitionOk(h, id, p, t) && !p.Closed() && !p.frozen && CommitsToTree(h, id, t, root, pool)
    ensures PartitionOk(h, id, p.(root := Some(root), league := p.league.(status := Settled)), t)
    ensures p.claimed == {} && p.claimable == map[] && Sum(p.deposits) == p.league.totalDeposited
  {
    hide TreeOk, Root;
  }

  lemma CommittedOwed(h: Platform, id: U64, p: Partition, t: Tree, root: Hash, pool: int)
    requires p.claimed == {} && p.claimable == map[] && CommitsToTree(h, id, t, root, pool)
    ensures Owed(p.(root := Some(root), league := p.league.(status := Settled)), t) == pool
  {
    hide TreeOk, Root;
    assert Unclaimed(t, {}) == Entitlements(t);
  }

  lemma CommittedPartition(h: Platform, id: U64, p: Partition, t: Tree, root: Hash, pool: int)
    requires PartitionOk(h, id, p, t) && !p.Closed() && !p.frozen && CommitsToTree(h, id, t, root, pool)
    ensures var p' := p.(root := Some(root), league := p.league.(status := Settled));
            PartitionOk(h, id, p', t) && Owed(p', t) == Owed(p, t) - p.league.totalDeposited + pool
  {
    hide PartitionOk, CommitsToTree;
    CommittedOk(h, id, p, t, root, pool);
    CommittedOwed(h, id, p, t, root, pool);
  }

  lemma SettleMerkleGuards(h: Platform, s: State, env: Env, admin: Address, id: U64, root: Hash,
                           pool: I128, treasury: Address, fee: I128, asset: Address)
    requires DoSettleMerkle(h, s, env, admin, id, root, pool, treasury, fee).Ok?
    ensures id in s.leagues && !s.leagues[id].Closed() && !s.leagues[id].frozen
    ensures fee >= 0 && pool + fee == s.leagues[id].league.totalDeposited
    ensures var s', p := DoSettleMerkle(h, s, env, admin, id, root, pool, treasury, fee).value, s.leagues[id];
            && s'.leagues == s.leagues[id := p.(root := Some(root), league := p.league.(status := Settled))]
            && s'.withdrawals == s.withdrawals
            && Balance(s'.ledger, asset, h.self) == Balance(s.ledger, asset, h.self)
                 - (if asset == p.league.asset then fee - Kept(h, treasury, fee) else 0)
  {}

  lemma SettleMerkleKeeps(h: Platform, s: State, trees: Trees, env: Env, admin: Address, id: U64, root: Hash,
                          pool: I128, treasury: Address, fee: I128, asset: Address)
    requires Inv(h, s, trees) && DoSettleMerkle(h, s, env, admin, id, root, pool, treasury, fee).Ok?
    requires CommitsToTree(h, id, trees(id), root, pool)
    ensures var s' := DoSettleMerkle(h, s, env, admin, id, root, pool, treasury, fee).value;
            && Inv(h, s', trees)
            && Surplus(h, s', trees, asset) == Surplus(h, s, trees, asset)
                 + (if InAsset(s, id, asset) then Kept(h, treasury, fee) else 0)
  {
    hide PartitionOk, Surplus, CommitsToTree;
    SettleMerkleGuards(h, s, env, admin, id, root, pool, treasury, fee, asset);
    var s' := DoSettleMerkle(h, s, env, admin, id, root, pool, treasury, fee).value;
    CommittedPartition(h, id, s.leagues[id], trees(id), root, pool);
    hide DoSettleMerkle;
    LeagueStep(h, s, s', trees, asset, id, s'.leagues[id]);
  }

  /** Only a committed, unclaimed prize gets past the proof check. */
  lemma ClaimMerkleIsOwed(h: Platform, s: State, trees: Trees, env: Env, id: U64, prize: WinnerPayout,
                          branch: seq<Hash>)
    requires Inv(h, s, trees) && DoClaimMerkle(h, s, env, id, prize, branch).Ok?
    requires NoCollision(h.sha256, ClaimInputs(h.sha256, id, prize, branch), TreeInputs(h.sha256, id, trees(id)))
    ensures id in s.leagues
    ensures var owed := Unclaimed(trees(id), s.leagues[id].claimed);
            prize.winner in owed && owed[prize.winner] == prize.amount
  {
    assert PartitionOk(h, id, s.leagues[id], trees(id));
    BranchSound(h.sha256, id, prize, branch, trees(id));
    CommittedIsEntitled(trees(id), prize);
  }

  lemma ClaimedPartition(h: Platform, id: U64, p: Partition, t: Tree, prize: WinnerPayout)
    requires PartitionOk(h, id, p, t) && p.root.Some?
    requires prize.winner in Unclaimed(t, p.claimed) && Unclaimed(t, p.claimed)[prize.winner] == prize.amount
    ensures var p' := p.(claimed := p.claimed + {prize.winner});
            PartitionOk(h, id, p', t) && Owed(p', t) == Owed(p, t) - prize.amount
  {
    UnclaimedAfter(t, p.claimed, prize.winner);
  }

  lemma UnclaimedAfter(t: Tree, claimed: set<Address>, who: Address)
    requires who in Unclaimed(t, claimed)
    ensures Sum(Unclaimed(t, claimed + {who})) == Sum(Unclaimed(t, claimed)) - Unclaimed(t, claimed)[who]
  {
    SumSplit(Unclaimed(t, claimed), who);
    assert Unclaimed(t, claimed + {who}) == Unclaimed(t, claimed) - {who};
  }

  lemma ClaimMerkleKeeps(h: Platform, s: State, trees: Trees, env: Env, id: U64, prize: WinnerPayout,
                         branch: seq<Hash>, asset: Address)
    requires Inv(h, s, trees) && h.self !in env.auth && DoClaimMerkle(h, s, env, id, prize, branch).Ok?
    requires var owed := Unclaimed(trees(id), s.leagues[id].claimed);
             prize.winner in owed && owed[prize.winner] == prize.amount
    ensures var s' := DoClaimMerkle(h, s, env, id, prize, branch).value;
            Inv(h, s', trees) && Surplus(h, s', trees, asset) == Surplus(h, s, trees, asset)
  {
    hide PartitionOk, Surplus;
    var s' := DoClaimMerkle(h, s, env, id, prize, branch).value;
    ClaimedPartition(h, id, s.leagues[id], trees(id), prize);
    LeagueStep(h, s, s', trees, asset, id, s'.leagues[id]);
  }

  /** Freezing, thawing and cancelling move no money. */
  lemma RelabelKeeps(h: Platform, s: State, trees: Trees, id: U64, status: Status, frozen: bool, asset: Address)
    requires Inv(h, s, trees) && id in s.leagues
    requires status == s.leagues[id].league.status
             || (status == Cancelled && s.leagues[id].league.status != Settled)
    requires frozen ==> status != Settled
    ensures var p := s.leagues[id];
            var p' := p.(frozen := frozen, league := p.league.(status := status));
            var s' := s.(leagues := s.leagues[id := p']);
            Inv(h, s', trees) && Surplus(h, s', trees, asset) == Surplus(h, s, trees, asset)
  {
    var p := s.leagues[id];
    var p' := p.(frozen := frozen, league := p.league.(status := status));
    assert PartitionOk(h, id, p, trees(id));
    LeagueStep(h, s, s.(leagues := s.leagues[id := p']), trees, asset, id, p');
  }

  lemma ThawKeeps(h: Platform, s: State, trees: Trees, id: U64, asset: Address)
    requires Inv(h, s, trees)
    ensures Inv(h, Thaw(s, id), trees) && Surplus(h, Thaw(s, id), trees, asset) == Surplus(h, s, trees, asset)
    ensures InAsset(Thaw(s, id), id, asset) == InAsset(s, id, asset)
  {
    if id in s.leagues {
      var p := s.leagues[id];
      assert p.(frozen := false) == p.(frozen := false, league := p.league.(status := p.league.status));
      RelabelKeeps(h, s, trees, id, p.league.status, false, asset);
    }
  }

  lemma CreateLeagueKeeps(h: Platform, s: State, trees: Trees, env: Env, creator: Address, id: U64, fee: I128,
                          token: Address, asset: Address)
    requires Inv(h, s, trees) && DoCreateLeague(s, env, creator, id, fee, token).Ok?
    ensures var s' := DoCreateLeague(s, env, creator, id, fee, token).value;
            Inv(h, s', trees) && Surplus(h, s', trees, asset) == Surplus(h, s, trees, asset)
  {
    var s' := DoCreateLeague(s, env, creator, id, fee, token).value;
    LeagueStep(h, s, s', trees, asset, id, s'.leagues[id]);
  }

  lemma ExecuteWithdrawalKeeps(h: Platform, s: State, trees: Trees, env: Env, caller: Address, id: U64, asset: Address)
    requires Inv(h, s, trees) && DoExecuteWithdrawal(h, s, env, caller, id).Ok?
    ensures var s' := DoExecuteWithdrawal(h, s, env, caller, id).value;
            && Inv(h, s', trees)
            && Surplus(h, s', trees, asset) == Surplus(h, s, trees, asset)
                 + (if s.withdrawals[id].asset == asset
                    then Kept(h, s.withdrawals[id].destination, s.withdrawals[id].amount) else 0)
  {
    var s' := DoExecuteWithdrawal(h, s, env, caller, id).value;
    var before, after := ExecutedWithdrawals(s.withdrawals, asset), ExecutedWithdrawals(s'.withdrawals, asset);
    var w := s.withdrawals[id];
    if w.asset == asset {
      assert after == before[id := w.amount];
      SumUpdate(before, id, w.amount);
    } else {
      assert after == before;
    }
  }

  lemma WithdrawalNoteKeeps(h: Platform, s: State, trees: Trees, id: U64, w: Withdrawal, asset: Address)
    requires Inv(h, s, trees) && w.amount > 0 && !w.executed
    requires id in s.withdrawals ==> !s.withdrawals[id].executed
    ensures var s' := s.(withdrawals := s.withdrawals[id := w]);
            Inv(h, s', trees) && Surplus(h, s', trees, asset) == Surplus(h, s, trees, asset)
  {
    assert ExecutedWithdrawals(s.withdrawals[id := w], asset) == ExecutedWithdrawals(s.withdrawals, asset);
  }
}
