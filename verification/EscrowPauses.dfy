/** Pauses over whole runs: how long they last, who ends them, and what an emergency refund needs. */
module EscrowPauses {
  import opened Wrappers
  import opened Host
  import opened EscrowModel
  import opened EscrowMoney
  import opened EscrowEffects
  import opened EscrowRuns
  import opened EscrowRefunds
  import opened EscrowTimelocks

  predicate Emergency(h: Platform, s: State, event: Event) {
    Succeeds(h, s, event) && (event.call.EmergencyPause? || event.call.FederatedPause?)
  }

  /** The admin's `unpause`, and the quorum's. */
  predicate Unpauses(h: Platform, s: State, event: Event) {
    Succeeds(h, s, event) && event.call.Unpause?
  }

  predicate QuorumUnpauses(h: Platform, s: State, event: Event) {
    Succeeds(h, s, event) && event.call.MultisigUnpause?
  }

  /** Every event but the pause calls leaves the three pause entries alone. */
  lemma PauseEntriesKept(h: Platform, s: State, event: Event)
    requires Governed(s) && !(Succeeds(h, s, event) && PauseCall(event.call))
    ensures var s' := Apply(h, s, event);
            s'.paused == s.paused && s'.pausedAt == s.pausedAt && s'.unpauseAfter == s.unpauseAfter
  {
    if Succeeds(h, s, event) {
      var Called(env, call) := event;
      hide Exec, Transfer, RequiredApprovals, Suits, Changed;
      if Administrative(call) {
        SetupCallFrame(h, s, env, call);
      } else if WithdrawalCall(call) {
        WithdrawalCallFrame(h, s, env, call);
      } else {
        LeagueEffect(h, s, env, call);
      }
    }
  }

  /**
   One event and the pause entries. A pause ends only by the admin's `unpause`, once the stored delay is
   over, or by a quorum, delay or not.
   */
  lemma PauseStep(h: Platform, s: State, event: Event)
    requires Governed(s)
    ensures var s' := Apply(h, s, event);
            && (s.paused ==> (!s'.paused <==> Unpauses(h, s, event) || QuorumUnpauses(h, s, event)))
            && (s.paused && s'.paused ==> s'.pausedAt == s.pausedAt)
            && (!s.paused && s'.paused ==> event.Called? && s'.pausedAt == Some(event.env.time))
            && (Unpauses(h, s, event) ==>
                  s.admin == Some(event.call.admin) && event.call.admin in event.env.auth
                  && (s.unpauseAfter.Some? ==> s.unpauseAfter.value <= event.env.time))
            && (QuorumUnpauses(h, s, event) ==>
                  s.config.Some? && Quorum(s.config.value, event.env, event.call.approvals))
            && s'.unpauseAfter == (if Emergency(h, s, event) then Some(DelayEnd(event.env.time))
                                   else if Unpauses(h, s, event) then None else s.unpauseAfter)
            && (Emergency(h, s, event) ==> s'.paused)
  {
    if Succeeds(h, s, event) && PauseCall(event.call) {
      PauseCallFrame(h, s, event.env, event.call);
      if event.call.MultisigUnpause? { QuorumExactly(s, event.env, event.call.approvals); }
      hide Exec, Governed, Quorum, AuthorizeSigners;
    } else {
      PauseEntriesKept(h, s, event);
      hide Exec, Governed;
    }
  }

  // ---------- the delay of an emergency pause ----------

  /** An emergency pause at `j` whose delay no successful `unpause` has cleared before `n`. */
  ghost predicate StillDelays(h: Platform, states: seq<State>, events: seq<Event>, j: nat, n: nat)
    requires n <= |events| < |states|
  {
    && j < n && Emergency(h, states[j], events[j])
    && forall k :: j < k < n ==> !Unpauses(h, states[k], events[k])
  }

  /** The stored delay covers every emergency pause not cleared since. */
  lemma {:induction false} DelayCovers(h: Platform, trees: Trees, states: seq<State>, events: seq<Event>, j: nat,
                                       n: nat)
    requires Run(h, trees, states, events) && n <= |events| && StillDelays(h, states, events, j, n)
    ensures states[n].unpauseAfter.Some? && DelayEnd(events[j].env.time) <= states[n].unpauseAfter.value
  {
    hide Run, Inv, Fair, Apply, Governed, Unpauses, Exec, Quorum;
    RunStart(h, trees, states, events);
    RunStep(h, trees, states, events, n - 1);
    RunGoverned(h, trees, states, events, n - 1);
    PauseStep(h, states[n - 1], events[n - 1]);
    if j < n - 1 {
      DelayCovers(h, trees, states, events, j, n - 1);
      if events[n - 1].Called? { ClocksOrdered(h, trees, states, events, j, n - 1); }
    }
  }

  /** And it is the delay of one of them. */
  lemma {:induction false} DelayOrigin(h: Platform, trees: Trees, states: seq<State>, events: seq<Event>, n: nat)
    returns (j: nat)
    requires Run(h, trees, states, events) && n <= |events| && states[n].unpauseAfter.Some?
    ensures StillDelays(h, states, events, j, n) && states[n].unpauseAfter == Some(DelayEnd(events[j].env.time))
  {
    hide Run, Inv, Fair, Apply, Governed, Unpauses, Exec, Quorum;
    RunStart(h, trees, states, events);
    assert n > 0;
    RunStep(h, trees, states, events, n - 1);
    RunGoverned(h, trees, states, events, n - 1);
    PauseStep(h, states[n - 1], events[n - 1]);
    if Emergency(h, states[n - 1], events[n - 1]) {
      j := n - 1;
    } else {
      j := DelayOrigin(h, trees, states, events, n - 1);
    }
  }

  /**
   The admin can end a pause exactly when the delay of every emergency pause not cleared by an earlier
   `unpause` is over, whichever pause it was that began the present one.
   */
  lemma UnpauseExactly(h: Platform, trees: Trees, states: seq<State>, events: seq<Event>, n: nat, env: Env,
                       admin: Address)
    requires Run(h, trees, states, events) && n <= |events|
    requires states[n].paused && states[n].admin == Some(admin) && admin in env.auth
    ensures var r := Exec(h, states[n], env, Call.Unpause(admin));
            && (r.Ok? <==> forall j {:trigger events[j]} :: 0 <= j < n && StillDelays(h, states, events, j, n) ==>
                             DelayEnd(events[j].env.time) <= env.time)
            && (r.Err? ==> r.error == TimelockNotElapsed)
  {
    forall j {:trigger events[j]} | 0 <= j < n && StillDelays(h, states, events, j, n)
      ensures states[n].unpauseAfter.Some? && DelayEnd(events[j].env.time) <= states[n].unpauseAfter.value
    {
      DelayCovers(h, trees, states, events, j, n);
    }
    if states[n].unpauseAfter.Some? { var j := DelayOrigin(h, trees, states, events, n); }
    hide Run, StillDelays, DelayEnd;
  }

  lemma {:induction false} EmergencyStays(h: Platform, trees: Trees, states: seq<State>, events: seq<Event>, j: nat,
                                          n: nat)
    requires Run(h, trees, states, events) && j < n <= |events| && Emergency(h, states[j], events[j])
    requires forall k :: j < k < n && events[k].Called? ==> events[k].env.time < DelayEnd(events[j].env.time)
    requires forall k :: j < k < n ==> !QuorumUnpauses(h, states[k], events[k])
    ensures states[n].paused && states[n].unpauseAfter.Some?
            && states[n].unpauseAfter.value >= DelayEnd(events[j].env.time)
  {
    hide Run, Inv, Fair, Apply, Governed, Unpauses, QuorumUnpauses, Exec, Quorum;
    RunStart(h, trees, states, events);
    RunStep(h, trees, states, events, n - 1);
    RunGoverned(h, trees, states, events, n - 1);
    PauseStep(h, states[n - 1], events[n - 1]);
    if j < n - 1 {
      EmergencyStays(h, trees, states, events, j, n - 1);
      if events[n - 1].Called? { ClocksOrdered(h, trees, states, events, j, n - 1); }
      if Unpauses(h, states[n - 1], events[n - 1]) {
        UnpausesIsCalled(h, states[n - 1], events[n - 1]);
      }
    }
  }

  lemma UnpausesIsCalled(h: Platform, s: State, event: Event)
    requires Unpauses(h, s, event)
    ensures event.Called?
  {}

  /** Within the delay of an emergency pause the contract stays paused exactly as long as no quorum unpauses it. */
  lemma EmergencyHolds(h: Platform, trees: Trees, states: seq<State>, events: seq<Event>, j: nat, n: nat)
    requires Run(h, trees, states, events) && j < n <= |events| && Emergency(h, states[j], events[j])
    requires forall k :: j < k < n && events[k].Called? ==> events[k].env.time < DelayEnd(events[j].env.time)
    ensures (forall k :: j < k <= n ==> states[k].paused)
            <==> (forall k :: j < k < n ==> !QuorumUnpauses(h, states[k], events[k]))
  {
    hide Run, Inv, Fair, Apply, Governed, Unpauses, QuorumUnpauses, Emergency, Exec, Quorum;
    RunStart(h, trees, states, events);
    if forall k :: j < k < n ==> !QuorumUnpauses(h, states[k], events[k]) {
      forall k | j < k <= n ensures states[k].paused {
        EmergencyStays(h, trees, states, events, j, k);
      }
    } else {
      var k :| j < k < n && QuorumUnpauses(h, states[k], events[k]);
      RunStep(h, trees, states, events, k);
      RunGoverned(h, trees, states, events, k);
      PauseStep(h, states[k], events[k]);
      QuorumLifts(h, states[k], events[k]);
      assert !states[k + 1].paused;
    }
  }

  lemma QuorumLifts(h: Platform, s: State, event: Event)
    requires QuorumUnpauses(h, s, event)
    ensures s.paused && !Apply(h, s, event).paused
  {
    PauseCallFrame(h, s, event.env, event.call);
    hide Exec;
  }

  // ---------- emergency refunds ----------

  /** A paused state has been paused, without a break, since an event at exactly the recorded time. */
  lemma {:induction false} PauseOrigin(h: Platform, trees: Trees, states: seq<State>, events: seq<Event>, n: nat)
    returns (j: nat)
    requires Run(h, trees, states, events) && n <= |events| && states[n].paused
    ensures j < n && !states[j].paused && events[j].Called?
    ensures states[n].pausedAt == Some(events[j].env.time)
    ensures forall k :: j < k <= n ==> states[k].paused
  {
    hide Run, Inv, Fair, Apply, Governed, Unpauses, QuorumUnpauses, Emergency, Quorum;
    RunStart(h, trees, states, events);
    assert n > 0;
    RunStep(h, trees, states, events, n - 1);
    RunGoverned(h, trees, states, events, n - 1);
    PauseStep(h, states[n - 1], events[n - 1]);
    if states[n - 1].paused {
      j := PauseOrigin(h, trees, states, events, n - 1);
    } else {
      j := n - 1;
    }
  }

  predicate Deposits(h: Platform, s: State, event: Event, id: U64, who: Address) {
    Succeeds(h, s, event) && event.call == Call.Deposit(who, id)
  }

  /** A stored deposit was made by a deposit call of that participant. */
  lemma {:induction false} DepositOrigin(h: Platform, trees: Trees, states: seq<State>, events: seq<Event>, n: nat,
                                         id: U64, who: Address)
    returns (d: nat)
    requires Run(h, trees, states, events) && n <= |events| && who != h.self && DepositOf(states[n], id, who) > 0
    ensures d < n && Deposits(h, states[d], events[d], id, who)
  {
    hide Run, Inv, Fair, Apply, Deposits, DepositOf;
    RunStart(h, trees, states, events);
    NothingDeposited(EMPTY.(ledger := states[0].ledger), id, who);
    assert n > 0;
    var s, event := states[n - 1], events[n - 1];
    RunStep(h, trees, states, events, n - 1);
    if Deposits(h, s, event, id, who) {
      d := n - 1;
    } else {
      DepositOnlyByDeposit(h, s, trees, event, id, who);
      d := DepositOrigin(h, trees, states, events, n - 1, id, who);
    }
  }

  /** Only a deposit of `who` raises their entry. */
  lemma ChangeLowers(call: Call, p: Partition, who: Address)
    requires LeagueCall(call) && Suits(call, p) && Entry(p.deposits, who) >= 0
    requires !(call.Deposit? && call.who == who)
    ensures Entry(Changed(call, p).deposits, who) <= Entry(p.deposits, who)
  {
    hide Named, RecordPrizes;
  }

  lemma LeagueCallLowers(s: State, s': State, call: Call, id: U64, who: Address)
    requires LeagueCall(call) && Effect(s, s', call) && DepositOf(s, id, who) >= 0
    requires call != Call.Deposit(who, id)
    ensures DepositOf(s', id, who) <= DepositOf(s, id, who)
  {
    hide Changed, Suits;
    if id in s.leagues && Subject(call) == id && !call.CreateLeague? { ChangeLowers(call, s.leagues[id], who); }
  }

  lemma DepositOnlyByDeposit(h: Platform, s: State, trees: Trees, event: Event, id: U64, who: Address)
    requires Inv(h, s, trees) && who != h.self && !Deposits(h, s, event, id, who)
    ensures DepositOf(Apply(h, s, event), id, who) <= DepositOf(s, id, who)
  {
    if Succeeds(h, s, event) {
      var Called(env, call) := event;
      if id in s.leagues { assert PartitionOk(h, id, s.leagues[id], trees(id)); }
      hide Inv, PartitionOk, Exec, Transfer, RequiredApprovals, Effect;
      if Administrative(call) {
        AdministrativeKeeps(h, s, env, call);
      } else if WithdrawalCall(call) {
        WithdrawalCallFrame(h, s, env, call);
      } else {
        LeagueEffect(h, s, env, call);
        LeagueCallLowers(s, Exec(h, s, env, call).value, call, id, who);
      }
    }
  }

  /**
   The refund at `i` comes fourteen days into the unbroken pause that began at `j`; it returns a deposit
   made at `d`, and every deposit of that participant is older than the pause.
   */
  ghost predicate RefundWaited(h: Platform, states: seq<State>, events: seq<Event>, i: nat, j: nat, d: nat)
    requires i < |events| < |states| && events[i].Called? && events[i].call.EmergencyRefund?
  {
    && j < i && !states[j].paused && events[j].Called? && (forall k :: j < k <= i ==> states[k].paused)
    && events[j].env.time + 1_209_600 <= events[i].env.time
    && d < j && Deposits(h, states[d], events[d], events[i].call.id, events[i].call.who)
    && forall k :: 0 <= k < i && Deposits(h, states[k], events[k], events[i].call.id, events[i].call.who) ==>
         k < j && events[k].env.time <= events[j].env.time
  }

  /** An emergency refund needs fourteen unbroken days of pause, and a deposit older than that pause. */
  lemma EmergencyRefundNeedsLongPause(h: Platform, trees: Trees, states: seq<State>, events: seq<Event>, i: nat)
    returns (j: nat, d: nat)
    requires Run(h, trees, states, events) && i < |events|
    requires Succeeds(h, states[i], events[i]) && events[i].call.EmergencyRefund?
    ensures RefundWaited(h, states, events, i, j, d)
  {
    hide Run, Inv, Fair, Apply, Deposits, Exec;
    var id, who := events[i].call.id, events[i].call.who;
    RunStart(h, trees, states, events);
    RunStep(h, trees, states, events, i);
    EmergencyGuards(h, trees, states[i], events[i]);
    j := PauseOrigin(h, trees, states, events, i);
    d := DepositOrigin(h, trees, states, events, i, id, who);
    RunStep(h, trees, states, events, j);
    forall k | 0 <= k < i && Deposits(h, states[k], events[k], id, who)
      ensures events[k].Called? && k < j && events[k].env.time <= events[j].env.time
    {
      DepositNeedsRunning(h, states[k], events[k], id, who);
      RunStep(h, trees, states, events, k);
      ClocksOrdered(h, trees, states, events, k, j);
    }
  }

  /** Deposits succeed only while the contract is running, and leave it running. */
  lemma DepositNeedsRunning(h: Platform, s: State, event: Event, id: U64, who: Address)
    requires Deposits(h, s, event, id, who)
    ensures event.Called? && !s.paused && !Apply(h, s, event).paused
  {}

  lemma ClocksOrdered(h: Platform, trees: Trees, states: seq<State>, events: seq<Event>, k: nat, j: nat)
    requires Run(h, trees, states, events) && k < |events| && j < |events| && events[k].Called? && events[j].Called?
    ensures k <= j ==> events[k].env.time <= events[j].env.time && events[k].env.sequence <= events[j].env.sequence
  {
    hide FairStep;
  }

  lemma EmergencyGuards(h: Platform, trees: Trees, s: State, event: Event)
    requires Succeeds(h, s, event) && event.call.EmergencyRefund?
    requires Fair(h, s, trees, event)
    ensures s.paused && s.pausedAt.Some? && s.pausedAt.value + EMERGENCY_REFUND_SECONDS <= event.env.time
    ensures event.call.who != h.self && DepositOf(s, event.call.id, event.call.who) > 0
  {}
}
