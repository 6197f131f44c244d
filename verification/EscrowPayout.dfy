/** Payability: every outstanding claim can be collected in full, whatever order they come in. */
module EscrowPayout {
  import opened Wrappers
  import opened Host
  import opened Sums
  import opened Commitments
  import opened EscrowModel
  import opened EscrowMoney
  import opened EscrowEffects
  import opened EscrowRuns
  import opened EscrowRefunds

  /** A recorded prize, a deposit of a cancelled league, or a prize committed to by a Merkle root. */
  datatype Claim = Prize(id: U64, who: Address) | Refunding(id: U64, who: Address) | Committed(id: U64, who: Address)

  ghost function DueFrom(p: Partition, t: Tree, c: Claim): int {
    match c
    case Prize(_, who) => Entry(p.claimable, who)
    case Refunding(_, who) => if p.league.status == Cancelled then Entry(p.deposits, who) else 0
    case Committed(_, who) => if p.root.Some? then Entry(Unclaimed(t, p.claimed), who) else 0
  }

  ghost function Due(s: State, trees: Trees, c: Claim): int {
    if c.id in s.leagues then DueFrom(s.leagues[c.id], trees(c.id), c) else 0
  }

  /** The invocation that collects a claim; a committed prize also needs a branch. */
  predicate Collects(call: Call, c: Claim, due: int) {
    match c
    case Prize(id, who) => call == ClaimPrize(who, id)
    case Refunding(id, who) => call == ClaimRefund(who, id)
    case Committed(id, who) =>
      call.ClaimMerkle? && call.id == id && call.prize.winner == who && call.prize.amount == due
  }

  /** Money is due in this asset and the claimant has signed; only recorded prizes wait for the end of a pause. */
  ghost predicate Ready(h: Platform, s: State, trees: Trees, asset: Address, env: Env, c: Claim) {
    InAsset(s, c.id, asset) && Due(s, trees, c) > 0
    && (c.Prize? ==> EnsureOperational(s, env).Pass?) && c.who in env.auth && h.self !in env.auth
  }

  /** A claim for which money is there. */
  ghost predicate Affordable(h: Platform, s: State, trees: Trees, asset: Address, env: Env, c: Claim) {
    Inv(h, s, trees) && Ready(h, s, trees, asset, env, c) && Due(s, trees, c) <= Balance(s.ledger, asset, h.self)
  }

  lemma DueIsOwed(h: Platform, id: U64, p: Partition, t: Tree, c: Claim)
    requires PartitionOk(h, id, p, t)
    ensures 0 <= Owed(p, t) && DueFrom(p, t, c) <= Owed(p, t)
  {
    SumNonNegative(p.deposits);
    SumNonNegative(p.claimable);
    if p.root.Some? { SumNonNegative(Unclaimed(t, p.claimed)); }
  }

  /** What collecting does to the league: exactly this claim is settled, every other stays as it was. */
  lemma OnlyThisClaim(p: Partition, t: Tree, c: Claim, other: Claim)
    requires c != other && c.id == other.id
    ensures c.Prize? ==> DueFrom(p.(claimable := p.claimable - {c.who}), t, other) == DueFrom(p, t, other)
    ensures c.Refunding? ==>
              forall total ::
                var q := p.(deposits := p.deposits[c.who := 0], league := p.league.(totalDeposited := total));
                DueFrom(q, t, other) == DueFrom(p, t, other)
    ensures c.Committed? ==> DueFrom(p.(claimed := p.claimed + {c.who}), t, other) == DueFrom(p, t, other)
  {}

  /** The league after a claim: what differs is this claim's own entry (and, for a refund, the total). */
  predicate Collected(p: Partition, p': Partition, c: Claim) {
    match c
    case Prize(_, who) => p' == p.(claimable := p.claimable - {who})
    case Refunding(_, who) =>
      p' == p.(deposits := p.deposits[who := 0], league := p.league.(totalDeposited := p'.league.totalDeposited))
    case Committed(_, who) => p' == p.(claimed := p.claimed + {who})
  }

  lemma OthersKept(s: State, s': State, trees: Trees, c: Claim)
    requires c.id in s.leagues && c.id in s'.leagues && s'.leagues == s.leagues[c.id := s'.leagues[c.id]]
    requires Collected(s.leagues[c.id], s'.leagues[c.id], c)
    ensures forall other :: other != c ==> Due(s', trees, other) == Due(s, trees, other)
    ensures forall id: U64, asset :: InAsset(s', id, asset) == InAsset(s, id, asset)
  {
    forall other | other != c ensures Due(s', trees, other) == Due(s, trees, other) {
      if other.id == c.id { OnlyThisClaim(s.leagues[c.id], trees(c.id), c, other); }
    }
  }

  /** Everything a claim promises about the state after it. */
  ghost predicate Paid(h: Platform, s: State, s': State, trees: Trees, asset: Address, c: Claim) {
    && Inv(h, s', trees)
    && TotalOwed(s', trees, asset) == TotalOwed(s, trees, asset) - Due(s, trees, c)
    && s'.paused == s.paused && s'.peers == s.peers
    && Balance(s'.ledger, asset, c.who) == Balance(s.ledger, asset, c.who) + Due(s, trees, c)
    && Balance(s'.ledger, asset, h.self) == Balance(s.ledger, asset, h.self) - Due(s, trees, c)
    && (forall id: U64 :: InAsset(s', id, asset) == InAsset(s, id, asset))
    && (forall other :: other != c ==> Due(s', trees, other) == Due(s, trees, other))
  }

  /** The token and storage effects of a claim that the guards let through. */
  ghost predicate Collecting(h: Platform, s: State, s': State, trees: Trees, asset: Address, c: Claim) {
    && c.id in s.leagues && c.id in s'.leagues && s'.leagues == s.leagues[c.id := s'.leagues[c.id]]
    && Collected(s.leagues[c.id], s'.leagues[c.id], c)
    && s'.withdrawals == s.withdrawals && s'.paused == s.paused && s'.peers == s.peers
    && Balance(s'.ledger, asset, c.who) == Balance(s.ledger, asset, c.who) + Due(s, trees, c)
    && Balance(s'.ledger, asset, h.self) == Balance(s.ledger, asset, h.self) - Due(s, trees, c)
  }

  lemma CollectingPays(h: Platform, s: State, s': State, trees: Trees, asset: Address, c: Claim)
    requires Collecting(h, s, s', trees, asset, c)
    requires Inv(h, s', trees) && Surplus(h, s', trees, asset) == Surplus(h, s, trees, asset)
    ensures Paid(h, s, s', trees, asset, c)
  {
    hide Inv, TotalOwed, Due, Collected;
    OthersKept(s, s', trees, c);
  }

  lemma PrizeCollects(h: Platform, s: State, trees: Trees, asset: Address, env: Env, c: Claim)
    requires Ready(h, s, trees, asset, env, c) && c.Prize? && !s.leagues[c.id].frozen
    requires Due(s, trees, c) <= Balance(s.ledger, asset, h.self)
    ensures DoClaimPrize(h, s, env, c.who, c.id).Ok?
    ensures Collecting(h, s, DoClaimPrize(h, s, env, c.who, c.id).value, trees, asset, c)
  {}

  lemma RefundingCollects(h: Platform, s: State, trees: Trees, asset: Address, env: Env, c: Claim)
    requires Ready(h, s, trees, asset, env, c) && c.Refunding?
    requires Due(s, trees, c) <= Balance(s.ledger, asset, h.self)
    requires Due(s, trees, c) <= s.leagues[c.id].league.totalDeposited <= I128_MAX
    ensures DoClaimRefund(h, s, env, c.who, c.id).Ok?
    ensures Collecting(h, s, DoClaimRefund(h, s, env, c.who, c.id).value, trees, asset, c)
  {}

  lemma CommittedCollects(h: Platform, s: State, trees: Trees, asset: Address, env: Env, c: Claim,
                          prize: WinnerPayout, branch: seq<Hash>)
    requires Ready(h, s, trees, asset, env, c) && c.Committed? && prize.winner == c.who
             && prize.amount == Due(s, trees, c)
    requires Due(s, trees, c) <= Balance(s.ledger, asset, h.self)
    requires var p := s.leagues[c.id];
             && !p.frozen && p.league.status == Settled
             && BranchRoot(h.sha256, c.id, prize, branch) == p.root.value
    ensures DoClaimMerkle(h, s, env, c.id, prize, branch).Ok?
    ensures Collecting(h, s, DoClaimMerkle(h, s, env, c.id, prize, branch).value, trees, asset, c)
  {
    hide BranchRoot;
  }

  lemma {:induction false} EntitlementFits(t: Tree, who: Address)
    requires who in Entitlements(t)
    ensures -I128_MAX - 1 <= Entitlements(t)[who] <= I128_MAX
  {
    if t.Node? { EntitlementFits(if who in Entitlements(t.right) then t.right else t.left, who); }
  }

  /** What the invariant says about a league with something due. */
  lemma DueFacts(h: Platform, id: U64, p: Partition, t: Tree, c: Claim)
    requires PartitionOk(h, id, p, t) && DueFrom(p, t, c) > 0
    ensures !c.Refunding? ==> p.league.status == Settled && !p.frozen
    ensures c.Refunding? ==> DueFrom(p, t, c) <= p.league.totalDeposited <= I128_MAX
    ensures c.Committed? ==> p.root == Some(Root(h.sha256, id, t)) && DueFrom(p, t, c) <= I128_MAX
                             && Commits(t, WinnerPayout(c.who, DueFrom(p, t, c)))
                             && c.who in Unclaimed(t, p.claimed) && Unclaimed(t, p.claimed)[c.who] == DueFrom(p, t, c)
  {
    SumNonNegative(p.deposits);
    if c.Committed? {
      EntitlementFits(t, c.who);
      CommittedIsEntitled(t, WinnerPayout(c.who, DueFrom(p, t, c)));
    }
  }

  lemma PrizePays(h: Platform, s: State, trees: Trees, asset: Address, env: Env, c: Claim)
    requires Affordable(h, s, trees, asset, env, c) && c.Prize?
    ensures DoClaimPrize(h, s, env, c.who, c.id).Ok?
    ensures Paid(h, s, DoClaimPrize(h, s, env, c.who, c.id).value, trees, asset, c)
  {
    assert PartitionOk(h, c.id, s.leagues[c.id], trees(c.id));
    hide Inv, PartitionOk, Surplus, DueFrom, DoClaimPrize, Collecting, Paid;
    DueFacts(h, c.id, s.leagues[c.id], trees(c.id), c);
    PrizeCollects(h, s, trees, asset, env, c);
    ClaimPrizeKeeps(h, s, trees, env, c.who, c.id, asset);
    CollectingPays(h, s, DoClaimPrize(h, s, env, c.who, c.id).value, trees, asset, c);
  }

  lemma RefundingPays(h: Platform, s: State, trees: Trees, asset: Address, env: Env, c: Claim)
    requires Affordable(h, s, trees, asset, env, c) && c.Refunding?
    ensures DoClaimRefund(h, s, env, c.who, c.id).Ok?
    ensures Paid(h, s, DoClaimRefund(h, s, env, c.who, c.id).value, trees, asset, c)
  {
    assert PartitionOk(h, c.id, s.leagues[c.id], trees(c.id));
    hide Inv, PartitionOk, Surplus, DueFrom, DoClaimRefund, Collecting, Paid;
    DueFacts(h, c.id, s.leagues[c.id], trees(c.id), c);
    RefundingCollects(h, s, trees, asset, env, c);
    ClaimRefundKeeps(h, s, trees, env, c.who, c.id, asset);
    CollectingPays(h, s, DoClaimRefund(h, s, env, c.who, c.id).value, trees, asset, c);
  }

  lemma CommittedPays(h: Platform, s: State, trees: Trees, asset: Address, env: Env, c: Claim)
    returns (prize: WinnerPayout, branch: seq<Hash>)
    requires Affordable(h, s, trees, asset, env, c) && c.Committed?
    ensures prize.winner == c.who && prize.amount == Due(s, trees, c)
    ensures DoClaimMerkle(h, s, env, c.id, prize, branch).Ok?
    ensures Paid(h, s, DoClaimMerkle(h, s, env, c.id, prize, branch).value, trees, asset, c)
  {
    assert PartitionOk(h, c.id, s.leagues[c.id], trees(c.id));
    hide Inv, PartitionOk, Surplus, DueFrom, DoClaimMerkle, Collecting, Paid, Unclaimed, BranchRoot, Root;
    DueFacts(h, c.id, s.leagues[c.id], trees(c.id), c);
    prize := WinnerPayout(c.who, Due(s, trees, c));
    branch := BranchComplete(h.sha256, c.id, prize, trees(c.id));
    CommittedCollects(h, s, trees, asset, env, c, prize, branch);
    ClaimMerkleKeeps(h, s, trees, env, c.id, prize, branch, asset);
    CollectingPays(h, s, DoClaimMerkle(h, s, env, c.id, prize, branch).value, trees, asset, c);
  }

  /** An outstanding claim succeeds, pays in full, and leaves every other claim as it was. */
  lemma ClaimPays(h: Platform, s: State, trees: Trees, asset: Address, env: Env, c: Claim) returns (call: Call)
    requires Affordable(h, s, trees, asset, env, c)
    ensures Collects(call, c, Due(s, trees, c))
    ensures Exec(h, s, env, call).Ok? && Paid(h, s, Exec(h, s, env, call).value, trees, asset, c)
  {
    hide Affordable, Paid, Due, DoClaimPrize, DoClaimRefund, DoClaimMerkle;
    match c
    case Prize(id, who) =>
      call := ClaimPrize(who, id);
      PrizePays(h, s, trees, asset, env, c);
    case Refunding(id, who) =>
      call := ClaimRefund(who, id);
      RefundingPays(h, s, trees, asset, env, c);
    case Committed(id, who) =>
      var prize, branch := CommittedPays(h, s, trees, asset, env, c);
      call := ClaimMerkle(id, prize, branch);
  }

  lemma StillReady(h: Platform, s: State, s': State, trees: Trees, asset: Address, c: Claim, env: Env, other: Claim)
    requires Paid(h, s, s', trees, asset, c) && other != c && Ready(h, s, trees, asset, env, other)
    ensures Ready(h, s', trees, asset, env, other) && Due(s', trees, other) == Due(s, trees, other)
  {
    hide Inv, TotalOwed, Due, InAsset;
  }

  ghost predicate Pays(h: Platform, s: State, s': State, env: Env, call: Call, asset: Address, c: Claim, due: int) {
    && Collects(call, c, due)
    && Exec(h, s, env, call) == Ok(s')
    && Balance(s'.ledger, asset, c.who) == Balance(s.ledger, asset, c.who) + due
  }

  /** Every claim of the list, each made once, is ready to be collected. */
  ghost predicate AllReady(h: Platform, s: State, trees: Trees, asset: Address, envs: seq<Env>, claims: seq<Claim>) {
    && |envs| == |claims|
    && (forall i, j :: 0 <= i < j < |claims| ==> claims[i] != claims[j])
    && (forall i :: 0 <= i < |claims| ==> Ready(h, s, trees, asset, envs[i], claims[i]))
  }

  /** Made one after another from `states[0]`, every claim pays what was due at the start. */
  ghost predicate AllPaid(h: Platform, s: State, trees: Trees, asset: Address, envs: seq<Env>, claims: seq<Claim>,
                          states: seq<State>, calls: seq<Call>)
  {
    && |envs| == |claims| == |calls| && |states| == |claims| + 1 && states[0] == s
    && (forall i {:trigger claims[i]} :: 0 <= i < |claims| ==>
          Pays(h, states[i], states[i + 1], envs[i], calls[i], asset, claims[i], Due(s, trees, claims[i])))
  }

  lemma RestReady(h: Platform, s: State, s': State, trees: Trees, asset: Address, envs: seq<Env>, claims: seq<Claim>)
    requires AllReady(h, s, trees, asset, envs, claims) && claims != [] && Paid(h, s, s', trees, asset, claims[0])
    ensures AllReady(h, s', trees, asset, envs[1..], claims[1..])
    ensures forall i :: 0 < i < |claims| ==> Due(s', trees, claims[i]) == Due(s, trees, claims[i])
  {
    hide Due, Ready, Paid;
    forall i | 0 < i < |claims|
      ensures Ready(h, s', trees, asset, envs[i], claims[i]) && Due(s', trees, claims[i]) == Due(s, trees, claims[i])
    {
      StillReady(h, s, s', trees, asset, claims[0], envs[i], claims[i]);
    }
  }

  lemma PaidFirst(h: Platform, s: State, s': State, trees: Trees, asset: Address, envs: seq<Env>, claims: seq<Claim>,
                  states: seq<State>, call: Call, calls: seq<Call>)
    requires claims != [] && |envs| == |claims|
    requires Collects(call, claims[0], Due(s, trees, claims[0])) && Exec(h, s, envs[0], call) == Ok(s')
    requires Paid(h, s, s', trees, asset, claims[0])
    requires forall i :: 0 < i < |claims| ==> Due(s', trees, claims[i]) == Due(s, trees, claims[i])
    requires AllPaid(h, s', trees, asset, envs[1..], claims[1..], states, calls)
    ensures AllPaid(h, s, trees, asset, envs, claims, [s] + states, [call] + calls)
  {
    assert Pays(h, s, s', envs[0], call, asset, claims[0], Due(s, trees, claims[0])) by {
      hide Collects, Exec, Inv, TotalOwed, Due;
    }
    hide Collects, Exec, Paid, Due, Pays;
    forall i | 0 < i < |claims|
      ensures Pays(h, states[i - 1], states[i], envs[i], calls[i - 1], asset, claims[i], Due(s, trees, claims[i]))
    {
      assert claims[i] == claims[1..][i - 1] && envs[i] == envs[1..][i - 1];
    }
  }

  // ---------- how much a list of claims is due ----------

  ghost function SumDue(s: State, trees: Trees, claims: seq<Claim>): int {
    if claims == [] then 0 else Due(s, trees, claims[0]) + SumDue(s, trees, claims[1..])
  }

  lemma {:induction false} SumDueSame(s: State, s': State, trees: Trees, claims: seq<Claim>)
    requires forall i :: 0 <= i < |claims| ==> Due(s', trees, claims[i]) == Due(s, trees, claims[i])
    ensures SumDue(s', trees, claims) == SumDue(s, trees, claims)
  {
    hide Due;
    if claims != [] {
      assert Due(s', trees, claims[0]) == Due(s, trees, claims[0]);
      forall i | 0 <= i < |claims| - 1 ensures Due(s', trees, claims[1..][i]) == Due(s, trees, claims[1..][i]) {
        assert claims[1..][i] == claims[i + 1];
      }
      SumDueSame(s, s', trees, claims[1..]);
    }
  }

  lemma {:induction false} SumDueNonNegative(s: State, trees: Trees, claims: seq<Claim>)
    requires forall i :: 0 <= i < |claims| ==> Due(s, trees, claims[i]) > 0
    ensures SumDue(s, trees, claims) >= 0
  {
    hide Due;
    if claims != [] {
      assert Due(s, trees, claims[0]) > 0;
      SumDueNonNegative(s, trees, claims[1..]);
    }
  }

  lemma {:induction false} SumDueSnoc(s: State, trees: Trees, claims: seq<Claim>, i: nat)
    requires i < |claims|
    ensures SumDue(s, trees, claims[..i + 1]) == SumDue(s, trees, claims[..i]) + Due(s, trees, claims[i])
    decreases i
  {
    hide Due;
    if i == 0 {
      assert claims[..1][1..] == [] && claims[..0] == [];
    } else {
      assert claims[..i + 1][1..] == claims[1..][..i] && claims[..i][1..] == claims[1..][..i - 1];
      SumDueSnoc(s, trees, claims[1..], i - 1);
    }
  }

  lemma ReadyPositive(h: Platform, s: State, trees: Trees, asset: Address, envs: seq<Env>, claims: seq<Claim>)
    requires AllReady(h, s, trees, asset, envs, claims)
    ensures forall i :: 0 <= i < |claims| ==> Due(s, trees, claims[i]) > 0
  {
    forall i | 0 <= i < |claims| ensures Due(s, trees, claims[i]) > 0 {
      assert Ready(h, s, trees, asset, envs[i], claims[i]);
    }
  }

  /** The first claim has been paid; the rest are ready, and due what they were. */
  ghost predicate FirstPaid(h: Platform, s: State, s': State, trees: Trees, asset: Address, envs: seq<Env>,
                            claims: seq<Claim>)
    requires claims != [] && |envs| == |claims|
  {
    && Inv(h, s', trees) && AllReady(h, s', trees, asset, envs[1..], claims[1..])
    && SumDue(s', trees, claims[1..]) == SumDue(s, trees, claims[1..])
    && TotalOwed(s', trees, asset) == TotalOwed(s, trees, asset) - Due(s, trees, claims[0])
    && Balance(s'.ledger, asset, h.self) == Balance(s.ledger, asset, h.self) - Due(s, trees, claims[0])
  }

  lemma RestOfClaims(h: Platform, s: State, s': State, trees: Trees, asset: Address, envs: seq<Env>,
                     claims: seq<Claim>)
    requires AllReady(h, s, trees, asset, envs, claims) && claims != [] && Paid(h, s, s', trees, asset, claims[0])
    ensures FirstPaid(h, s, s', trees, asset, envs, claims)
    ensures forall i :: 0 < i < |claims| ==> Due(s', trees, claims[i]) == Due(s, trees, claims[i])
  {
    hide Inv, Due, AllReady, TotalOwed;
    RestReady(h, s, s', trees, asset, envs, claims);
    SumDueSame(s, s', trees, claims[1..]);
  }

  lemma FirstReady(h: Platform, s: State, trees: Trees, asset: Address, envs: seq<Env>, claims: seq<Claim>)
    requires Inv(h, s, trees) && AllReady(h, s, trees, asset, envs, claims) && claims != []
    requires Due(s, trees, claims[0]) <= Balance(s.ledger, asset, h.self)
    ensures |envs| == |claims| && Affordable(h, s, trees, asset, envs[0], claims[0])
  {
    assert Ready(h, s, trees, asset, envs[0], claims[0]);
    hide Inv, Ready, Due;
  }

  /** Collecting a list of claims one after another, as long as the holdings cover them together. */
  lemma {:induction false} AllClaimsPay(h: Platform, s: State, trees: Trees, asset: Address, envs: seq<Env>,
                                        claims: seq<Claim>)
    returns (states: seq<State>, calls: seq<Call>)
    requires Inv(h, s, trees) && AllReady(h, s, trees, asset, envs, claims)
    requires SumDue(s, trees, claims) <= Balance(s.ledger, asset, h.self)
    ensures AllPaid(h, s, trees, asset, envs, claims, states, calls)
    decreases |claims|
  {
    if claims == [] {
      states, calls := [s], [];
    } else {
      ReadyPositive(h, s, trees, asset, envs, claims);
      hide Due, Ready, AllReady;
      SumDueNonNegative(s, trees, claims[1..]);
      hide Inv, Exec, Collects, AllPaid, TotalOwed, Affordable, Paid;
      FirstReady(h, s, trees, asset, envs, claims);
      var call := ClaimPays(h, s, trees, asset, envs[0], claims[0]);
      var s' := Exec(h, s, envs[0], call).value;
      RestOfClaims(h, s, s', trees, asset, envs, claims);
      var later, tail := AllClaimsPay(h, s', trees, asset, envs[1..], claims[1..]);
      PaidFirst(h, s, s', trees, asset, envs, claims, later, call, tail);
      states, calls := [s] + later, [call] + tail;
    }
  }

  // ---------- and back: what is paid leaves the escrow ----------

  lemma PaymentLeaves(h: Platform, s: State, s': State, env: Env, call: Call, asset: Address, c: Claim, due: int)
    requires Pays(h, s, s', env, call, asset, c, due) && InAsset(s, c.id, asset) && c.who != h.self
    ensures Balance(s'.ledger, asset, h.self) == Balance(s.ledger, asset, h.self) - due
    ensures forall id: U64 :: InAsset(s', id, asset) == InAsset(s, id, asset)
  {
    AssetsKept(h, s, env, call, asset);
    hide EnsureOperational, BranchRoot;
    assert c.id in s.leagues && s.leagues[c.id].league.asset == asset;
    hide InAsset;
    if c.Prize? {
      hide DoClaimRefund, DoClaimMerkle;
    } else if c.Refunding? {
      hide DoClaimPrize, DoClaimMerkle;
    } else {
      hide DoClaimPrize, DoClaimRefund;
    }
  }

  lemma AssetsKept(h: Platform, s: State, env: Env, call: Call, asset: Address)
    requires (call.ClaimPrize? || call.ClaimRefund? || call.ClaimMerkle?) && Exec(h, s, env, call).Ok?
    ensures forall id: U64 :: InAsset(Exec(h, s, env, call).value, id, asset) == InAsset(s, id, asset)
  {
    hide Exec;
    LeagueEffect(h, s, env, call);
  }

  /** After the first `i` claims the escrow has paid just what they were due. */
  lemma {:induction false} PaidSoFar(h: Platform, s: State, trees: Trees, asset: Address, envs: seq<Env>,
                                     claims: seq<Claim>, states: seq<State>, calls: seq<Call>, i: nat)
    requires AllReady(h, s, trees, asset, envs, claims)
    requires AllPaid(h, s, trees, asset, envs, claims, states, calls) && i <= |claims|
    ensures Balance(states[i].ledger, asset, h.self)
            == Balance(s.ledger, asset, h.self) - SumDue(s, trees, claims[..i])
    ensures forall id: U64 :: InAsset(states[i], id, asset) == InAsset(s, id, asset)
  {
    if i == 0 {
      assert claims[..0] == [];
    } else {
      PaidSoFar(h, s, trees, asset, envs, claims, states, calls, i - 1);
      var c := claims[i - 1];
      assert Ready(h, s, trees, asset, envs[i - 1], c);
      assert Pays(h, states[i - 1], states[i], envs[i - 1], calls[i - 1], asset, c, Due(s, trees, c));
      hide Pays, Due, AllReady, AllPaid;
      PaymentLeaves(h, states[i - 1], states[i], envs[i - 1], calls[i - 1], asset, c, Due(s, trees, c));
      SumDueSnoc(s, trees, claims, i - 1);
    }
  }

  /** A list of claims can be collected in its order exactly when the escrow holds what they are due together. */
  lemma PayableIff(h: Platform, s: State, trees: Trees, asset: Address, envs: seq<Env>, claims: seq<Claim>)
    requires Inv(h, s, trees) && AllReady(h, s, trees, asset, envs, claims)
    ensures (exists states, calls :: AllPaid(h, s, trees, asset, envs, claims, states, calls))
            <==> SumDue(s, trees, claims) <= Balance(s.ledger, asset, h.self)
  {
    hide Inv, AllReady;
    if SumDue(s, trees, claims) <= Balance(s.ledger, asset, h.self) {
      var states, calls := AllClaimsPay(h, s, trees, asset, envs, claims);
    }
    if states, calls :| AllPaid(h, s, trees, asset, envs, claims, states, calls) {
      PaidSoFar(h, s, trees, asset, envs, claims, states, calls, |claims|);
      assert claims[..|claims|] == claims;
    }
    hide AllPaid;
  }

  // ---------- distinct claims are all part of what is owed ----------

  /** Neither obligations nor claims look at the tokens. */
  lemma LedgerAside(h: Platform, s: State, trees: Trees, asset: Address, envs: seq<Env>, claims: seq<Claim>,
                    ledger: Ledger)
    requires Inv(h, s, trees) && AllReady(h, s, trees, asset, envs, claims)
    ensures var s' := s.(ledger := ledger);
            && Inv(h, s', trees) && AllReady(h, s', trees, asset, envs, claims)
            && TotalOwed(s', trees, asset) == TotalOwed(s, trees, asset)
            && (forall i :: 0 <= i < |claims| ==> Due(s', trees, claims[i]) == Due(s, trees, claims[i]))
            && SumDue(s', trees, claims) == SumDue(s, trees, claims)
  {
    var s' := s.(ledger := ledger);
    forall i | 0 <= i < |claims| ensures Ready(h, s', trees, asset, envs[i], claims[i]) {
      assert Ready(h, s, trees, asset, envs[i], claims[i]);
    }
    hide Inv, AllReady, Due, TotalOwed;
    SumDueSame(s, s', trees, claims);
  }

  /** Give the escrow just enough for the first claim, let it be collected, and look at the rest. */
  lemma FirstAside(h: Platform, s: State, trees: Trees, asset: Address, envs: seq<Env>, claims: seq<Claim>)
    returns (s': State)
    requires Inv(h, s, trees) && AllReady(h, s, trees, asset, envs, claims) && claims != []
    ensures |envs| == |claims| && Inv(h, s', trees) && AllReady(h, s', trees, asset, envs[1..], claims[1..])
    ensures SumDue(s', trees, claims[1..]) == SumDue(s, trees, claims) - Due(s, trees, claims[0])
    ensures TotalOwed(s', trees, asset) == TotalOwed(s, trees, asset) - Due(s, trees, claims[0])
  {
    ReadyPositive(h, s, trees, asset, envs, claims);
    hide Inv, AllReady, TotalOwed, Due, Exec, Collects, Affordable, Paid;
    var enough: nat := Due(s, trees, claims[0]);
    var ledger := s.ledger[Holding(asset, h.self) := enough];
    LedgerAside(h, s, trees, asset, envs, claims, ledger);
    var richer := s.(ledger := ledger);
    FirstReady(h, richer, trees, asset, envs, claims);
    var call := ClaimPays(h, richer, trees, asset, envs[0], claims[0]);
    s' := Exec(h, richer, envs[0], call).value;
    RestOfClaims(h, richer, s', trees, asset, envs, claims);
  }

  lemma {:induction false} DuesWithinOwed(h: Platform, s: State, trees: Trees, asset: Address, envs: seq<Env>,
                                          claims: seq<Claim>)
    requires Inv(h, s, trees) && AllReady(h, s, trees, asset, envs, claims)
    ensures SumDue(s, trees, claims) <= TotalOwed(s, trees, asset)
    decreases |claims|
  {
    hide Inv, AllReady, TotalOwed, Due;
    if claims == [] {
      OwedNonNegative(h, s, trees, asset);
    } else {
      var s' := FirstAside(h, s, trees, asset, envs, claims);
      DuesWithinOwed(h, s', trees, asset, envs[1..], claims[1..]);
    }
  }

  lemma OwedNonNegative(h: Platform, s: State, trees: Trees, asset: Address)
    requires Inv(h, s, trees)
    ensures TotalOwed(s, trees, asset) >= 0
  {
    var owed: map<U64, int> := OwedByLeague(s.leagues, trees, asset);
    hide PartitionOk, Owed;
    forall id: U64 | id in owed ensures owed[id] >= 0 {
      assert PartitionOk(h, id, s.leagues[id], trees(id));
      DueIsOwed(h, id, s.leagues[id], trees(id), Prize(id, h.self));
    }
    SumNonNegative(owed);
  }

  /**
   In any state a run reaches, while executed fee withdrawals of the asset have taken no more than the
   surplus (the opening balance and the stray money), every list of outstanding claims can be collected.
   */
  lemma Payability(h: Platform, trees: Trees, states: seq<State>, events: seq<Event>, asset: Address, n: nat,
                   envs: seq<Env>, claims: seq<Claim>)
    returns (after: seq<State>, calls: seq<Call>)
    requires Run(h, trees, states, events) && n <= |events|
    requires Withdrawn(states[n], asset)
             <= Balance(states[0].ledger, asset, h.self) + StrayIn(h, states, events, asset, n)
    requires AllReady(h, states[n], trees, asset, envs, claims)
    ensures AllPaid(h, states[n], trees, asset, envs, claims, after, calls)
  {
    hide AllReady, AllPaid, Run, Inv, Withdrawn, TotalOwed, StrayIn;
    RunStart(h, trees, states, events);
    RunConserves(h, trees, states, events, asset, n);
    DuesWithinOwed(h, states[n], trees, asset, envs, claims);
    after, calls := AllClaimsPay(h, states[n], trees, asset, envs, claims);
  }

  /** With no withdrawal executed, that is always so. */
  lemma NothingWithdrawn(h: Platform, trees: Trees, states: seq<State>, events: seq<Event>, asset: Address, n: nat)
    requires Run(h, trees, states, events) && n <= |events|
    requires forall id: U64 :: id in states[n].withdrawals && states[n].withdrawals[id].asset == asset ==>
               !states[n].withdrawals[id].executed
    ensures Withdrawn(states[n], asset)
            <= Balance(states[0].ledger, asset, h.self) + StrayIn(h, states, events, asset, n)
  {
    RunConserves(h, trees, states, events, asset, n);
    assert ExecutedWithdrawals(states[n].withdrawals, asset) == map[];
    hide Run, Inv, StrayIn;
  }

  /** Exactly, and whatever has been withdrawn: the claims can be collected iff the holdings cover them. */
  lemma PayableExactly(h: Platform, trees: Trees, states: seq<State>, events: seq<Event>, asset: Address, n: nat,
                       envs: seq<Env>, claims: seq<Claim>)
    requires Run(h, trees, states, events) && n <= |events|
    requires AllReady(h, states[n], trees, asset, envs, claims)
    ensures (exists after, calls :: AllPaid(h, states[n], trees, asset, envs, claims, after, calls))
            <==> SumDue(states[n], trees, claims) <= Balance(states[n].ledger, asset, h.self)
  {
    hide AllReady, AllPaid, Run, Inv;
    RunStart(h, trees, states, events);
    RunConserves(h, trees, states, events, asset, n);
    PayableIff(h, states[n], trees, asset, envs, claims);
  }

  /** A prize once recorded makes its league settled, so no freeze can ever block its claim. */
  lemma RecordedPrizeIsNeverFrozen(h: Platform, trees: Trees, states: seq<State>, events: seq<Event>, n: nat, c: Claim)
    requires Run(h, trees, states, events) && n <= |events| && !c.Refunding?
    requires Due(states[n], trees, c) != 0
    ensures states[n].leagues[c.id].league.status == Settled && !states[n].leagues[c.id].frozen
  {
    RunConserves(h, trees, states, events, c.who, n);
    assert PartitionOk(h, c.id, states[n].leagues[c.id], trees(c.id));
  }
}
