/** Who decided what, and when: quorums, timelocked withdrawals and timelocked upgrades. */
module EscrowTimelocks {
  import opened Wrappers
  import opened Host
  import opened Commitments
  import opened EscrowModel
  import opened EscrowMoney
  import opened EscrowEffects
  import opened EscrowRuns

  // ---------- quorums ----------

  ghost predicate Distinct(xs: seq<Address>) {
    forall i, j :: 0 <= i < j < |xs| ==> xs[i] != xs[j]
  }

  ghost predicate Quorum(config: AdminConfig, env: Env, approvals: seq<Address>) {
    && config.threshold <= |approvals| <= |config.signers|
    && Distinct(approvals)
    && (forall i :: 0 <= i < |approvals| ==> approvals[i] in config.signers && approvals[i] in env.auth)
  }

  lemma {:induction false} ApprovalsFromMeaning(env: Env, signers: seq<Address>, approvals: seq<Address>, i: nat)
    requires i <= |approvals|
    ensures ApprovalsFrom(env, signers, approvals, i).Pass? <==>
            forall k :: i <= k < |approvals| ==>
              approvals[k] !in approvals[..k] && approvals[k] in signers && approvals[k] in env.auth
    decreases |approvals| - i
  {
    if i < |approvals| { ApprovalsFromMeaning(env, signers, approvals, i + 1); }
  }

  /** `authorize_signers` accepts exactly the duplicate-free quorums of configured signers who signed. */
  lemma QuorumExactly(s: State, env: Env, approvals: seq<Address>)
    ensures AuthorizeSigners(s, env, approvals).Pass? <==> s.config.Some? && Quorum(s.config.value, env, approvals)
  {
    if s.config.Some? {
      ApprovalsFromMeaning(env, s.config.value.signers, approvals, 0);
      if Quorum(s.config.value, env, approvals) {
        forall k | 0 <= k < |approvals| ensures approvals[k] !in approvals[..k] {}
      } else if AuthorizeSigners(s, env, approvals).Pass? {
        forall i, j | 0 <= i < j < |approvals| ensures approvals[i] != approvals[j] {
          assert approvals[i] in approvals[..j];
        }
      }
    }
  }

  lemma DistinctAreFew(xs: seq<Address>, ys: seq<Address>)
    requires Distinct(xs) && forall i :: 0 <= i < |xs| ==> xs[i] in ys
    ensures |xs| == |Named(xs)| <= |Named(ys)|
  {
    DistinctCount(xs);
    forall x | x in Named(xs) ensures x in Named(ys) {
      var i :| 0 <= i < |xs| && xs[i] == x;
      var j :| 0 <= j < |ys| && ys[j] == x;
    }
    SubsetSmaller(Named(xs), Named(ys));
  }

  lemma {:induction false} DistinctCount(xs: seq<Address>)
    requires Distinct(xs)
    ensures |Named(xs)| == |xs|
  {
    if xs == [] {
      assert Named(xs) == {};
    } else {
      NamedFirst(xs);
      forall i | 0 <= i < |xs| - 1 ensures xs[1..][i] != xs[0] { assert xs[1..][i] == xs[i + 1]; }
      assert xs[0] !in Named(xs[1..]);
      DistinctCount(xs[1..]);
    }
  }

  lemma SubsetSmaller(a: set<Address>, b: set<Address>)
    requires a <= b
    ensures |a| <= |b|
  {
    assert b == a + (b - a);
  }

  /** Some distinct members of a list, as many as wanted. */
  lemma {:induction false} SomeOf(xs: set<Address>, n: nat) returns (chosen: seq<Address>)
    requires n <= |xs|
    ensures |chosen| == n && Distinct(chosen) && forall i :: 0 <= i < n ==> chosen[i] in xs
  {
    if n == 0 {
      chosen := [];
    } else {
      var x :| x in xs;
      var others := SomeOf(xs - {x}, n - 1);
      chosen := [x] + others;
    }
  }

  ghost predicate HasQuorum(config: AdminConfig) {
    exists env, approvals :: Quorum(config, env, approvals)
  }

  /** A signer set can ever act iff it has as many different signers as its threshold; it may name one twice. */
  lemma HasQuorumIff(config: AdminConfig)
    ensures HasQuorum(config) <==> config.threshold <= |Named(config.signers)|
  {
    if config.threshold <= |Named(config.signers)| {
      var approvals := SomeOf(Named(config.signers), config.threshold);
      forall i | 0 <= i < |approvals| ensures approvals[i] in config.signers {
        assert approvals[i] in Named(config.signers);
      }
      var env := Env(Named(config.signers), 0, 0, {}, {});
      FewNames(config.signers);
      assert Quorum(config, env, approvals);
    }
    if env, approvals :| Quorum(config, env, approvals) { DistinctAreFew(approvals, config.signers); }
  }

  lemma {:induction false} FewNames(xs: seq<Address>)
    ensures |Named(xs)| <= |xs|
  {
    if xs == [] {
      assert Named(xs) == {};
    } else {
      NamedFirst(xs);
      FewNames(xs[1..]);
    }
  }

  // ---------- governance invariant ----------

  ghost predicate Governed(s: State) {
    && (s.config.Some? <==> s.admin.Some?)
    && (s.config.Some? ==> 0 < s.config.value.threshold <= |s.config.value.signers|)
    && (s.admin.None? ==> !s.paused && s.guardian.None? && s.peers == [])
    && (s.paused <==> s.pausedAt.Some?)
    && (forall id: U64 :: id in s.withdrawals ==>
          s.config.Some? && Distinct(s.withdrawals[id].approvals)
          && forall a :: a in s.withdrawals[id].approvals ==> a in s.config.value.signers)
  }

  lemma AdministrativeGoverned(h: Platform, s: State, env: Env, call: Call)
    requires Governed(s) && Administrative(call) && Exec(h, s, env, call).Ok?
    ensures var s' := Exec(h, s, env, call).value;
            Governed(s') && s'.withdrawals == s.withdrawals && (s.config.Some? ==> s'.config == s.config)
  {
    hide Exec;
    AdministrativeKeeps(h, s, env, call);
    if PauseCall(call) { PauseCallFrame(h, s, env, call); } else { SetupCallFrame(h, s, env, call); }
  }

  lemma WithdrawalGoverned(h: Platform, s: State, env: Env, call: Call)
    requires Governed(s) && WithdrawalCall(call) && Exec(h, s, env, call).Ok?
    ensures Governed(Exec(h, s, env, call).value) && Exec(h, s, env, call).value.config == s.config
  {
    hide Exec, RequiredApprovals, Transfer;
    WithdrawalCallFrame(h, s, env, call);
  }

  lemma LeagueGoverned(s: State, s': State)
    requires Governed(s) && LeagueOnly(s, s')
    ensures Governed(s') && s'.config == s.config
  {}

  /** The signer set, once configured, never changes. */
  lemma StepGoverned(h: Platform, s: State, event: Event)
    requires Governed(s)
    ensures Governed(Apply(h, s, event))
    ensures s.config.Some? ==> Apply(h, s, event).config == s.config
  {
    if Succeeds(h, s, event) {
      var Called(env, call) := event;
      hide Exec, Suits, Changed, Governed;
      if Administrative(call) {
        AdministrativeGoverned(h, s, env, call);
      } else if WithdrawalCall(call) {
        WithdrawalGoverned(h, s, env, call);
      } else {
        LeagueEffect(h, s, env, call);
        LeagueGoverned(s, Apply(h, s, event));
      }
    }
  }

  lemma StartGoverned(s: State)
    requires s == EMPTY.(ledger := s.ledger)
    ensures Governed(s)
  {}

  lemma {:induction false} RunGoverned(h: Platform, trees: Trees, states: seq<State>, events: seq<Event>, n: nat)
    requires Run(h, trees, states, events) && n <= |events|
    ensures Governed(states[n])
    ensures forall m :: 0 <= m <= n && states[m].config.Some? ==> states[n].config == states[m].config
  {
    hide Run, Inv, Fair, Apply, Governed;
    RunStart(h, trees, states, events);
    if n == 0 {
      StartGoverned(states[0]);
    } else {
      RunGoverned(h, trees, states, events, n - 1);
      RunStep(h, trees, states, events, n - 1);
      StepGoverned(h, states[n - 1], events[n - 1]);
    }
  }

  /** Without enough different signers no quorum call ever succeeds again, whatever is tried. */
  lemma LockedOut(h: Platform, trees: Trees, states: seq<State>, events: seq<Event>, m: nat, n: nat, env: Env,
                  approvals: seq<Address>)
    requires Run(h, trees, states, events) && m <= n <= |events| && states[m].config.Some?
    requires states[m].config.value.threshold > |Named(states[m].config.value.signers)|
    ensures AuthorizeSigners(states[n], env, approvals).Fail?
  {
    RunGoverned(h, trees, states, events, n);
    HasQuorumIff(states[m].config.value);
    QuorumExactly(states[n], env, approvals);
    hide Run, AuthorizeSigners, Quorum, Named;
  }

  // ---------- fee withdrawals ----------

  predicate Proposes(h: Platform, s: State, event: Event, id: U64) {
    Succeeds(h, s, event) && event.call.ProposeWithdrawal? && event.call.proposal == id
  }

  predicate Executes(h: Platform, s: State, event: Event, id: U64) {
    Succeeds(h, s, event) && event.call.ExecuteWithdrawal? && event.call.proposal == id
  }

  /** A signed proposal or approval of withdrawal `id` by `who`. */
  predicate Backs(h: Platform, s: State, event: Event, id: U64, who: Address) {
    Succeeds(h, s, event) && who in event.env.auth
    && (event.call.ProposeWithdrawal? || event.call.ApproveWithdrawal?)
    && event.call.proposal == id && event.call.caller == who
  }

  /** The stored withdrawal says exactly what was proposed. */
  predicate AsProposed(w: Withdrawal, event: Event) {
    && event.Called? && event.call.ProposeWithdrawal?
    && w.proposer == event.call.caller && w.destination == event.call.destination
    && w.asset == event.call.asset && w.amount == event.call.amount
    && w.unlockLedger == event.env.sequence + TIMELOCK_LEDGERS
  }

  /** Withdrawals are touched only by their own calls. */
  lemma OtherEventsKeepWithdrawal(h: Platform, s: State, event: Event, id: U64)
    requires !(Succeeds(h, s, event) && WithdrawalCall(event.call) && event.call.proposal == id)
    ensures var s' := Apply(h, s, event);
            (id in s'.withdrawals <==> id in s.withdrawals)
            && (id in s.withdrawals ==> s'.withdrawals[id] == s.withdrawals[id])
  {
    if Succeeds(h, s, event) {
      var Called(env, call) := event;
      hide Exec, RequiredApprovals, Transfer, Suits, Changed;
      if Administrative(call) {
        AdministrativeKeeps(h, s, env, call);
      } else if WithdrawalCall(call) {
        WithdrawalCallFrame(h, s, env, call);
      } else {
        LeagueEffect(h, s, env, call);
      }
    }
  }

  ghost predicate WithdrawalHistory(h: Platform, states: seq<State>, events: seq<Event>, n: nat, id: U64, j: nat)
    requires n <= |events| < |states|
  {
    && j < n && id in states[n].withdrawals
    && Proposes(h, states[j], events[j], id)
    && AsProposed(states[n].withdrawals[id], events[j])
    && (forall a :: a in states[n].withdrawals[id].approvals ==>
          exists k :: j <= k < n && Backs(h, states[k], events[k], id, a))
    && (states[n].withdrawals[id].executed <==> exists k :: j < k < n && Executes(h, states[k], events[k], id))
    && (forall k :: 0 <= k <= j ==> !Executes(h, states[k], events[k], id))
  }

  /** One more event: the withdrawal is left alone, or gains an approval, or is executed. */
  lemma HistoryGrows(h: Platform, states: seq<State>, events: seq<Event>, n: nat, id: U64, j: nat)
    requires n < |events| < |states| && WithdrawalHistory(h, states, events, n, id, j)
    requires id in states[n + 1].withdrawals
    requires var w, w', event := states[n].withdrawals[id], states[n + 1].withdrawals[id], events[n];
             || (w' == w && !Executes(h, states[n], event, id))
             || (event.Called? && event.call.ApproveWithdrawal?
                 && w' == w.(approvals := w.approvals + [event.call.caller])
                 && Backs(h, states[n], event, id, event.call.caller) && !Executes(h, states[n], event, id))
             || (w' == w.(executed := true) && Executes(h, states[n], event, id))
    ensures WithdrawalHistory(h, states, events, n + 1, id, j)
  {
    hide Executes, Proposes, Backs;
    var w, w' := states[n].withdrawals[id], states[n + 1].withdrawals[id];
    forall a | a in w'.approvals ensures exists k :: j <= k < n + 1 && Backs(h, states[k], events[k], id, a) {
      if a in w.approvals {
        var k :| j <= k < n && Backs(h, states[k], events[k], id, a);
      } else {
        assert Backs(h, states[n], events[n], id, a);
      }
    }
  }

  /** Where a stored withdrawal comes from. */
  lemma {:induction false} WithdrawalOrigin(h: Platform, trees: Trees, states: seq<State>, events: seq<Event>, n: nat,
                                            id: U64)
    returns (j: nat)
    requires Run(h, trees, states, events) && n <= |events| && id in states[n].withdrawals
    ensures WithdrawalHistory(h, states, events, n, id, j)
  {
    hide WithdrawalHistory, Fair, Inv, Apply, Run, Exec, AsProposed;
    RunStart(h, trees, states, events);
    assert n > 0;
    var s, event := states[n - 1], events[n - 1];
    RunStep(h, trees, states, events, n - 1);
    if !(Succeeds(h, s, event) && WithdrawalCall(event.call) && event.call.proposal == id) {
      OtherEventsKeepWithdrawal(h, s, event, id);
      j := WithdrawalOrigin(h, trees, states, events, n - 1, id);
      HistoryGrows(h, states, events, n - 1, id, j);
    } else {
      OwnEvent(h, s, event, id);
      if event.call.ProposeWithdrawal? {
        j := n - 1;
        NeverBefore(h, trees, states, events, n - 1, id);
        HistoryStarts(h, states, events, j, id);
      } else {
        j := WithdrawalOrigin(h, trees, states, events, n - 1, id);
        HistoryGrows(h, states, events, n - 1, id, j);
      }
    }
  }

  /** What a successful call does to the withdrawal it names. */
  lemma OwnEvent(h: Platform, s: State, event: Event, id: U64)
    requires Succeeds(h, s, event) && WithdrawalCall(event.call) && event.call.proposal == id
    ensures var s' := Apply(h, s, event);
            && id in s'.withdrawals && event.call.caller in event.env.auth
            && (event.call.ProposeWithdrawal? ==>
                  id !in s.withdrawals && AsProposed(s'.withdrawals[id], event)
                  && s'.withdrawals[id].approvals == [event.call.caller] && !s'.withdrawals[id].executed)
            && (event.call.ApproveWithdrawal? ==>
                  id in s.withdrawals && Backs(h, s, event, id, event.call.caller)
                  && s'.withdrawals[id]
                     == s.withdrawals[id].(approvals := s.withdrawals[id].approvals + [event.call.caller]))
            && (event.call.ExecuteWithdrawal? ==>
                  id in s.withdrawals && s'.withdrawals[id] == s.withdrawals[id].(executed := true))
  {
    hide Transfer, RequiredApprovals;
    WithdrawalCallFrame(h, s, event.env, event.call);
  }

  lemma HistoryStarts(h: Platform, states: seq<State>, events: seq<Event>, j: nat, id: U64)
    requires j < |events| < |states| && Proposes(h, states[j], events[j], id) && id in states[j + 1].withdrawals
    requires var w := states[j + 1].withdrawals[id];
             AsProposed(w, events[j]) && w.approvals == [events[j].call.caller] && !w.executed
    requires events[j].call.caller in events[j].env.auth
    requires forall k :: 0 <= k < j ==> !Executes(h, states[k], events[k], id)
    ensures WithdrawalHistory(h, states, events, j + 1, id, j)
  {
    assert Backs(h, states[j], events[j], id, events[j].call.caller);
    hide Exec;
  }

  /** Nothing executes a withdrawal that does not exist yet. */
  lemma {:induction false} NeverBefore(h: Platform, trees: Trees, states: seq<State>, events: seq<Event>, n: nat,
                                       id: U64)
    requires Run(h, trees, states, events) && n <= |events| && id !in states[n].withdrawals
    ensures forall k :: 0 <= k < n ==> !Executes(h, states[k], events[k], id)
  {
    hide Run, Inv, Fair, Apply, Exec;
    RunStart(h, trees, states, events);
    if n > 0 {
      var s, event := states[n - 1], events[n - 1];
      RunStep(h, trees, states, events, n - 1);
      if Succeeds(h, s, event) && WithdrawalCall(event.call) && event.call.proposal == id {
        OwnEvent(h, s, event, id);
      }
      OtherEventsKeepWithdrawal(h, s, event, id);
      NeverBefore(h, trees, states, events, n - 1, id);
    }
  }

  /**
   The execution of withdrawal `id` at `i` was proposed at `j`: it pays what was proposed, late enough, on
   the word of enough distinct signers, and for the first time.
   */
  ghost predicate WithdrawalWaited(h: Platform, states: seq<State>, events: seq<Event>, i: nat, id: U64, j: nat)
    requires i < |events| < |states|
  {
    && j < i && id in states[i].withdrawals && states[i].config.Some?
    && Executes(h, states[i], events[i], id) && Proposes(h, states[j], events[j], id)
    && events[i].env.sequence >= events[j].env.sequence + 34_560
    && Transfer(states[i].ledger, events[j].call.asset, h.self, events[j].call.destination, events[j].call.amount)
       == Ok(states[i + 1].ledger)
    && BackedEnough(h, states, events, i, id, j)
    && forall k :: 0 <= k < i ==> !Executes(h, states[k], events[k], id)
  }

  /** Every counted approval is a signed proposal or approval made between `j` and `i`. */
  ghost predicate BackedEnough(h: Platform, states: seq<State>, events: seq<Event>, i: nat, id: U64, j: nat)
    requires j < i < |events| < |states| && id in states[i].withdrawals && states[i].config.Some?
  {
    var approvals, config := states[i].withdrawals[id].approvals, states[i].config.value;
    && Distinct(approvals) && |approvals| >= config.threshold && (|config.signers| >= 2 ==> |approvals| >= 2)
    && forall a :: a in approvals ==>
         a in config.signers && exists k :: j <= k < i && Backs(h, states[k], events[k], id, a)
  }

  /** An executed withdrawal: late enough, as proposed, backed by a quorum, and never executed before. */
  lemma WithdrawalTimelock(h: Platform, trees: Trees, states: seq<State>, events: seq<Event>, i: nat, id: U64)
    returns (j: nat)
    requires Run(h, trees, states, events) && i < |events| && Executes(h, states[i], events[i], id)
    ensures WithdrawalWaited(h, states, events, i, id, j)
  {
    WithdrawalCallFrame(h, states[i], events[i].env, events[i].call);
    RunStart(h, trees, states, events);
    RunFair(h, trees, states, events, i);
    j := WithdrawalOrigin(h, trees, states, events, i, id);
    RunGoverned(h, trees, states, events, i);
    hide Run, Exec, Transfer, Backs, Distinct, Fair;
    forall k | 0 <= k < i ensures !Executes(h, states[k], events[k], id) {}
  }

  // ---------- upgrades ----------

  predicate ProposesUpgrade(h: Platform, s: State, event: Event) {
    Succeeds(h, s, event) && event.call.ProposeUpgrade?
  }

  predicate Upgrades(h: Platform, s: State, event: Event) {
    Succeeds(h, s, event) && event.call.DoUpgrade?
  }

  lemma UpgradeFrame(h: Platform, s: State, event: Event)
    ensures !ProposesUpgrade(h, s, event) && !Upgrades(h, s, event) ==> Apply(h, s, event).upgrade == s.upgrade
    ensures ProposesUpgrade(h, s, event) ==>
              Apply(h, s, event).upgrade == Some(Upgrade(event.call.wasmHash, event.call.proposer,
                                                         event.env.sequence + TIMELOCK_LEDGERS))
    ensures Upgrades(h, s, event) ==> Apply(h, s, event).upgrade == None
  {
    if Succeeds(h, s, event) {
      var Called(env, call) := event;
      hide Exec, Transfer, RequiredApprovals, Suits, Changed;
      if PauseCall(call) {
        PauseCallFrame(h, s, env, call);
      } else if Administrative(call) {
        SetupCallFrame(h, s, env, call);
      } else if WithdrawalCall(call) {
        WithdrawalCallFrame(h, s, env, call);
      } else {
        LeagueEffect(h, s, env, call);
      }
    }
  }

  /** The pending upgrade was put there by the last proposal, and no upgrade has been executed since. */
  lemma {:induction false} UpgradeOrigin(h: Platform, trees: Trees, states: seq<State>, events: seq<Event>, n: nat)
    returns (j: nat)
    requires Run(h, trees, states, events) && n <= |events| && states[n].upgrade.Some?
    ensures j < n && ProposesUpgrade(h, states[j], events[j])
    ensures states[n].upgrade.value.wasmHash == events[j].call.wasmHash
    ensures states[n].upgrade.value.unlockLedger == events[j].env.sequence + TIMELOCK_LEDGERS
    ensures forall k :: j < k < n ==> !ProposesUpgrade(h, states[k], events[k]) && !Upgrades(h, states[k], events[k])
  {
    hide Run, Inv, Fair, Apply, ProposesUpgrade, Upgrades;
    RunStart(h, trees, states, events);
    assert n > 0;
    RunStep(h, trees, states, events, n - 1);
    UpgradeFrame(h, states[n - 1], events[n - 1]);
    if ProposesUpgrade(h, states[n - 1], events[n - 1]) {
      j := n - 1;
    } else {
      j := UpgradeOrigin(h, trees, states, events, n - 1);
    }
  }

  /** The upgrade at `i` was the last proposal, made at `j`, waited out in full and approved by a quorum. */
  ghost predicate UpgradeWaited(h: Platform, states: seq<State>, events: seq<Event>, i: nat, j: nat)
    requires i < |events| < |states|
  {
    && j < i && Upgrades(h, states[i], events[i]) && ProposesUpgrade(h, states[j], events[j])
    && events[j].call.wasmHash == events[i].call.wasmHash
    && (forall k :: j < k < i ==> !ProposesUpgrade(h, states[k], events[k]) && !Upgrades(h, states[k], events[k]))
    && events[i].env.sequence >= events[j].env.sequence + 34_560
    && states[i].config.Some? && Quorum(states[i].config.value, events[i].env, events[i].call.approvals)
    && states[i + 1].upgrade == None
  }

  /** An executed upgrade: the last proposal, for this hash, waited out in full, with a quorum. */
  lemma UpgradeTimelock(h: Platform, trees: Trees, states: seq<State>, events: seq<Event>, i: nat) returns (j: nat)
    requires Run(h, trees, states, events) && i < |events| && Upgrades(h, states[i], events[i])
    ensures UpgradeWaited(h, states, events, i, j)
  {
    QuorumExactly(states[i], events[i].env, events[i].call.approvals);
    SetupCallFrame(h, states[i], events[i].env, events[i].call);
    hide AuthorizeSigners, Quorum, Exec, Run, Fair;
    RunStart(h, trees, states, events);
    RunFair(h, trees, states, events, i);
    UpgradeFrame(h, states[i], events[i]);
    j := UpgradeOrigin(h, trees, states, events, i);
  }
}
