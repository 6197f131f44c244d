/** Concrete runs on which the contract does not do what one might expect of it. */
module EscrowWitnesses {
  import opened Wrappers
  import opened Host
  import opened Sums
  import opened PrizeSplit
  import opened Commitments
  import opened EscrowModel
  import opened EscrowMoney
  import opened EscrowEffects
  import opened EscrowRuns
  import opened EscrowRefunds
  import opened EscrowTimelocks
  import opened EscrowPauses

  /** A run so far, and where it has led. */
  datatype Story = Story(states: seq<State>, events: seq<Event>, now: State)

  ghost predicate Told(h: Platform, trees: Trees, env: Env, story: Story) {
    && Run(h, trees, story.states, story.events) && story.now == story.states[|story.events|]
    && forall i :: 0 <= i < |story.events| ==> story.events[i].Called? && story.events[i].env == env
  }

  function Next(story: Story, env: Env, call: Call, after: State): Story {
    Story(story.states + [after], story.events + [Called(env, call)], after)
  }

  lemma Begin(h: Platform, trees: Trees, env: Env, ledger: Ledger) returns (story: Story)
    ensures story == Story([EMPTY.(ledger := ledger)], [], EMPTY.(ledger := ledger)) && Told(h, trees, env, story)
  {
    story := Story([EMPTY.(ledger := ledger)], [], EMPTY.(ledger := ledger));
    RunBegins(h, trees, story.now);
  }

  /** One more successful call in the same environment; Merkle calls, which need more, are left to others. */
  lemma Continue(h: Platform, trees: Trees, env: Env, story: Story, call: Call, after: State) returns (next: Story)
    requires Told(h, trees, env, story) && h.self !in env.auth && !call.SettleMerkle? && !call.ClaimMerkle?
    requires Exec(h, story.now, env, call) == Ok(after)
    ensures next == Next(story, env, call, after) && Told(h, trees, env, next)
  {
    next := Next(story, env, call, after);
    var event := Called(env, call);
    assert Apply(h, story.now, event) == after;
    assert Fair(h, story.now, trees, event);
    hide Exec, Apply, Fair, Run;
    RunStart(h, trees, story.states, story.events);
    RunExtends(h, trees, story.states, story.events, event);
  }

  function Signed(who: set<Address>): Env { Env(who, 0, 0, {}, {}) }

  function Configured(admin: Address, ledger: Ledger): State {
    EMPTY.(admin := Some(admin), config := Some(AdminConfig([admin], 1)), ledger := ledger)
  }

  /** An initialised contract with one league of one participant who has paid `fee`. */
  function OneDeposit(h: Platform, admin: Address, who: Address, asset: Address, fee: nat): Partition {
    Partition(League(admin, fee, asset, fee, 1, Upcoming), map[who := fee], map[], None, {}, false)
  }

  lemma LeagueStory(h: Platform, trees: Trees, admin: Address, who: Address, asset: Address, fee: nat, ledger: Ledger)
    returns (story: Story)
    requires h.self !in {admin, who} && fee <= I128_MAX
    ensures Told(h, trees, Signed({admin, who}), story) && |story.events| == 2
    ensures |story.states| == 3 && story.states[0].ledger == ledger
    ensures var p := Partition(League(admin, fee, asset, 0, 0, Upcoming), map[], map[], None, {}, false);
            story.now == Configured(admin, ledger).(leagues := map[1 := p])
  {
    hide Run, Told;
    var env := Signed({admin, who});
    var p := Partition(League(admin, fee, asset, 0, 0, Upcoming), map[], map[], None, {}, false);
    var created := Configured(admin, ledger).(leagues := map[1 := p]);
    assert Exec(h, EMPTY.(ledger := ledger), env, Initialize(admin)) == Ok(Configured(admin, ledger));
    assert Exec(h, Configured(admin, ledger), env, CreateLeague(admin, 1, fee, asset)) == Ok(created);
    hide Exec;
    story := Begin(h, trees, env, ledger);
    story := Continue(h, trees, env, story, Initialize(admin), Configured(admin, ledger));
    story := Continue(h, trees, env, story, CreateLeague(admin, 1, fee, asset), created);
  }

  lemma DepositStory(h: Platform, trees: Trees, admin: Address, who: Address, asset: Address, fee: nat)
    returns (story: Story)
    requires h.self !in {admin, who} && 0 < fee <= I128_MAX
    ensures Told(h, trees, Signed({admin, who}), story) && |story.events| == 3
    ensures story.now.leagues == map[1 := OneDeposit(h, admin, who, asset, fee)]
    ensures story.now == Configured(admin, story.now.ledger).(leagues := story.now.leagues)
    ensures Balance(story.states[0].ledger, asset, h.self) == 0 && Balance(story.now.ledger, asset, h.self) == fee
  {
    hide Run, Told;
    var env, ledger := Signed({admin, who}), map[Holding(asset, who) := fee];
    story := LeagueStory(h, trees, admin, who, asset, fee, ledger);
    var paid := ledger[Holding(asset, who) := 0][Holding(asset, h.self) := fee];
    var deposited := story.now.(leagues := map[1 := OneDeposit(h, admin, who, asset, fee)], ledger := paid);
    DepositWorks(h, story.now, env, who, deposited);
    hide Exec;
    story := Continue(h, trees, env, story, Call.Deposit(who, 1), deposited);
  }

  lemma DepositWorks(h: Platform, s: State, env: Env, who: Address, s': State)
    requires 1 in s.leagues && who in env.auth && !s.paused && s.peers == []
    requires var p := s.leagues[1];
             && p.league.status == Upcoming && p.deposits == map[] && who != h.self
             && 0 < p.league.entryFee <= I128_MAX && p.league.totalDeposited == 0 && p.league.participantCount == 0
             && Balance(s.ledger, p.league.asset, who) == p.league.entryFee
             && Balance(s.ledger, p.league.asset, h.self) == 0
             && s' == s.(leagues := s.leagues[1 := p.(deposits := map[who := p.league.entryFee],
                                                      league := p.league.(totalDeposited := p.league.entryFee,
                                                                          participantCount := 1))],
                         ledger := s.ledger[Holding(p.league.asset, who) := 0]
                                           [Holding(p.league.asset, h.self) := p.league.entryFee])
    ensures Exec(h, s, env, Call.Deposit(who, 1)) == Ok(s')
  {}

  /**
   A winner named twice keeps only the last prize: of a pool of 100 shared 70 to 30, seventy stay in the
   escrow for ever and are owed to nobody.
   */
  lemma RepeatedWinnerLosesPrize(h: Platform, trees: Trees, admin: Address, who: Address, asset: Address)
    returns (story: Story)
    requires h.self !in {admin, who}
    ensures Told(h, trees, Signed({admin, who}), story) && |story.events| == 4
    ensures story.events[3].call.Settle?
            && story.events[3].call.settlement.winners == [WinnerPayout(who, 70), WinnerPayout(who, 30)]
    ensures Balance(story.now.ledger, asset, h.self) == 100 && TotalOwed(story.now, trees, asset) == 30
    ensures !Tight(h, story.states[3], story.events[3], asset)
  {
    hide Run, Exec;
    var env := Signed({admin, who});
    story := DepositStory(h, trees, admin, who, asset, 100);
    RunStart(h, trees, story.states, story.events);
    var s, winners := story.now, [WinnerPayout(who, 70), WinnerPayout(who, 30)];
    var a := PlainSettlement(admin, 1, winners, admin, 0);
    var s' := SettlesTwice(h, s, env, admin, who, asset, a);
    story := Continue(h, trees, env, story, Call.Settle(a), s');
    assert winners[0].winner == winners[1].winner;
    assert !DistinctPayees(winners);
    OwedOnce(trees, s', asset, who);
  }

  lemma SettlesTwice(h: Platform, s: State, env: Env, admin: Address, who: Address, asset: Address, a: Settlement)
    returns (s': State)
    requires s == Configured(admin, s.ledger).(leagues := map[1 := OneDeposit(h, admin, who, asset, 100)])
    requires env == Signed({admin, who})
    requires a == PlainSettlement(admin, 1, [WinnerPayout(who, 70), WinnerPayout(who, 30)], admin, 0)
    ensures Exec(h, s, env, Call.Settle(a)) == Ok(s') && s'.ledger == s.ledger
    ensures s'.leagues.Keys == {1} && s'.leagues[1].league.status == Settled && s'.leagues[1].league.asset == asset
    ensures s'.leagues[1].claimable == map[who := 30] && s'.leagues[1].root == None
  {
    hide CheckWinners, RecordPrizes;
    assert Amounts(a.winners) == [70, 30];
    SeventyThirtyAccepted();
    RecordedTwice(who);
    assert ApprovalsFrom(env, [admin], [admin], 1) == Pass;
    s' := s.(leagues := s.leagues[1 := s.leagues[1].(claimable := map[who := 30],
                                                    league := s.leagues[1].league.(status := Settled))]);
  }

  lemma SeventyThirtyAccepted()
    ensures CheckWinners(100, 0, [70, 30], None) == Ok(100)
  {
    var amounts := [70, 30];
    WinnersInRange(100, 0, amounts, None);
    var curve := PrizeCurve(100, 2, None).value;
    assert curve == Curve([70, 30], [50, 50]);
    MatchFromPass(amounts, curve, 0);
    assert Total(amounts[1..]) == 30 && Total(amounts) == 100;
  }

  lemma RecordedTwice(who: Address)
    ensures RecordPrizes(map[], [WinnerPayout(who, 70), WinnerPayout(who, 30)]) == map[who := 30]
  {
    var winners, none := [WinnerPayout(who, 70), WinnerPayout(who, 30)], map[];
    var rest := winners[1..];
    assert rest == [WinnerPayout(who, 30)] && rest[1..] == [];
    assert RecordPrizes(none, winners) == RecordPrizes(none[who := 70], rest);
    assert RecordPrizes(none[who := 70], rest) == RecordPrizes(none[who := 70][who := 30], rest[1..]);
    assert none[who := 70][who := 30] == map[who := 30];
  }

  lemma OwedOnce(trees: Trees, s: State, asset: Address, who: Address)
    requires s.leagues.Keys == {1} && s.leagues[1].league.status == Settled && s.leagues[1].league.asset == asset
    requires s.leagues[1].claimable == map[who := 30] && s.leagues[1].root == None
    ensures TotalOwed(s, trees, asset) == 30
  {
    SumOne(who, 30);
    assert Owed(s.leagues[1], trees(1)) == 30;
    var id: U64 := 1;
    SumOne(id, 30);
    assert OwedByLeague(s.leagues, trees, asset) == map[id := 30];
  }

  lemma SumOne<K>(k: K, v: int)
    ensures Sum(map[k := v]) == v
  {
    SumUpdate(map[], k, v);
    assert map[][k := v] == map[k := v];
  }

  lemma RefundsOne(h: Platform, ledger: Ledger, asset: Address, who: Address, fee: nat)
    requires fee > 0 && Balance(ledger, asset, h.self) == fee
    ensures var outcome := RefundEach(h, ledger, asset, map[who := fee], [who]);
            outcome.Ok? && outcome.value.1 == map[]
  {
    var none: seq<Address>, deposits := [who][1..], map[who := fee];
    var paid := Transfer(ledger, asset, h.self, who, fee);
    assert none == [] && deposits - {who} == map[];
    assert RefundEach(h, paid.value, asset, map[], none) == Ok((paid.value, map[]));
    assert RefundEach(h, ledger, asset, deposits, [who]) == RefundEach(h, paid.value, asset, deposits - {who}, none);
  }

  lemma RefundWorks(h: Platform, s: State, env: Env, admin: Address, who: Address, s': State)
    requires s.admin == Some(admin) && admin in env.auth && 1 in s.leagues && s.leagues[1].league.status == Upcoming
    requires var p := s.leagues[1];
             var outcome := RefundEach(h, s.ledger, p.league.asset, p.deposits, [who]);
             outcome.Ok? && s' == s.(leagues := s.leagues[1 := p.(deposits := outcome.value.1,
                                                                  league := p.league.(status := Cancelled))],
                                     ledger := outcome.value.0)
    ensures Exec(h, s, env, Call.Refund(admin, 1, [who])) == Ok(s')
  {
    hide RefundEach;
  }

  /** After a list refund the league still counts what it has given back. */
  lemma ListRefundLeavesCounters(h: Platform, trees: Trees, admin: Address, who: Address, asset: Address)
    returns (story: Story)
    requires h.self !in {admin, who}
    ensures Told(h, trees, Signed({admin, who}), story) && |story.events| == 4
    ensures story.events[3].call == Call.Refund(admin, 1, [who])
    ensures story.now.leagues.Keys == {1} && story.now.leagues[1].deposits == map[]
    ensures story.now.leagues[1].league.totalDeposited == 7 && story.now.leagues[1].league.participantCount == 1
  {
    hide Run, Told, Exec;
    var env := Signed({admin, who});
    story := DepositStory(h, trees, admin, who, asset, 7);
    var s, p := story.now, story.now.leagues[1];
    var outcome := RefundEach(h, s.ledger, asset, p.deposits, [who]);
    RefundsOne(h, s.ledger, asset, who, 7);
    var s' := s.(leagues := s.leagues[1 := p.(deposits := map[], league := p.league.(status := Cancelled))],
                 ledger := outcome.value.0);
    RefundWorks(h, s, env, admin, who, s');
    story := Continue(h, trees, env, story, Call.Refund(admin, 1, [who]), s');
  }

  /**
   A contract with one signer, who is also its guardian. The emergency pause is lifted at once, not a day
   later; the delay it leaves behind then keeps the admin from ending an ordinary pause.
   */
  lemma StaleDelay(h: Platform, trees: Trees, admin: Address) returns (story: Story)
    requires h.self != admin
    ensures Told(h, trees, Signed({admin}), story) && |story.events| == 5
    ensures Emergency(h, story.states[2], story.events[2]) && story.states[3].paused
    ensures QuorumUnpauses(h, story.states[3], story.events[3]) && !story.states[4].paused
    ensures story.events[3].env.time < DelayEnd(story.events[2].env.time)
    ensures story.events[4].call == Call.Pause(admin) && story.now.paused
    ensures Exec(h, story.now, Signed({admin}), Call.Unpause(admin)) == Err(TimelockNotElapsed)
  {
    var env := Signed({admin});
    var none: Ledger := map[];
    story := Begin(h, trees, env, none);
    var ready := Configured(admin, none);
    story := Continue(h, trees, env, story, Initialize(admin), ready);
    assert ApprovalsFrom(env, [admin], [admin], 1) == Pass;
    assert AuthorizeSigners(ready, env, [admin]) == Pass;
    var guarded := ready.(guardian := Some(admin));
    story := Continue(h, trees, env, story, SetGuardian([admin], admin), guarded);
    var halted := guarded.(paused := true, pausedAt := Some(0), unpauseAfter := Some(EMERGENCY_UNPAUSE_SECONDS));
    assert Exec(h, guarded, env, EmergencyPause(admin)) == Ok(halted);
    story := Continue(h, trees, env, story, EmergencyPause(admin), halted);
    var lifted := halted.(paused := false, pausedAt := None);
    assert AuthorizeSigners(halted, env, [admin]) == Pass;
    story := Continue(h, trees, env, story, MultisigUnpause([admin]), lifted);
    var again := lifted.(paused := true, pausedAt := Some(0));
    assert Exec(h, lifted, env, Call.Pause(admin)) == Ok(again);
    story := Continue(h, trees, env, story, Call.Pause(admin), again);
    hide Run;
  }

  /** Initialisation accepts one signer named twice with a threshold of two; nothing can then be authorised. */
  lemma DuplicateSignersLockOut(h: Platform, trees: Trees, signer: Address, env: Env, approvals: seq<Address>)
    returns (story: Story)
    requires h.self != signer
    ensures Told(h, trees, Signed({signer}), story) && |story.events| == 1
    ensures story.events[0].call == InitializeMultisig([signer, signer], 2)
    ensures AuthorizeSigners(story.now, env, approvals).Fail?
  {
    var none: Ledger, config := map[], AdminConfig([signer, signer], 2);
    story := Begin(h, trees, Signed({signer}), none);
    var ready := EMPTY.(admin := Some(signer), config := Some(config), ledger := none);
    story := Continue(h, trees, Signed({signer}), story, InitializeMultisig([signer, signer], 2), ready);
    assert Named(config.signers) == {signer};
    LockedOut(h, trees, story.states, story.events, 1, 1, env, approvals);
  }
}
