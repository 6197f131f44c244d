/** The life of a league: open, then settled once or cancelled, and never anything else. */
module EscrowLifecycle {
  import opened Wrappers
  import opened Host
  import opened EscrowModel
  import opened EscrowMoney
  import opened EscrowEffects
  import opened EscrowRuns

  predicate SettlementCall(call: Call) { call.Settle? || call.ResolvePayout? || call.SettleMerkle? }

  /** A successful settlement of this league, by any of the settlement entry points. */
  predicate Settles(h: Platform, s: State, event: Event, id: U64) {
    Succeeds(h, s, event)
    && SettlementCall(event.call) && Subject(event.call) == id
  }

  /** What one event may do to a league: its terms never change, and a closed league stays as it is. */
  predicate Ages(before: League, after: League) {
    && after.creator == before.creator && after.entryFee == before.entryFee && after.asset == before.asset
    && (after.status == before.status
        || (before.status == Upcoming && (after.status == Settled || after.status == Cancelled)))
  }

  ghost predicate Aged(s: State, s': State, id: U64) {
    id in s.leagues ==> id in s'.leagues && Ages(s.leagues[id].league, s'.leagues[id].league)
  }

  /** A settlement closes an open league; without one, no league becomes settled. */
  ghost predicate SettledOnlySo(s: State, s': State, id: U64, settles: bool) {
    && (settles ==>
        id in s.leagues && !s.leagues[id].Closed() && id in s'.leagues && s'.leagues[id].league.status == Settled)
    && (!settles && id in s'.leagues && s'.leagues[id].league.status == Settled ==>
          id in s.leagues && s.leagues[id].league.status == Settled)
  }

  lemma ChangeAges(call: Call, p: Partition)
    requires LeagueCall(call) && Suits(call, p) && p.league.status != Active
    ensures Ages(p.league, Changed(call, p).league)
    ensures SettlementCall(call) ==> !p.Closed()
    ensures Changed(call, p).league.status == Settled <==> SettlementCall(call) || p.league.status == Settled
  {
    hide Named, RecordPrizes;
  }

  lemma LeagueCallAges(s: State, s': State, call: Call, id: U64)
    requires LeagueCall(call) && Effect(s, s', call)
    requires id in s.leagues ==> s.leagues[id].league.status != Active
    ensures Aged(s, s', id)
    ensures SettledOnlySo(s, s', id, SettlementCall(call) && Subject(call) == id)
  {
    hide Changed, Suits;
    if id in s.leagues && Subject(call) == id && !call.CreateLeague? { ChangeAges(call, s.leagues[id]); }
  }

  lemma SameLeagues(s: State, s': State, id: U64)
    requires s'.leagues == s.leagues
    ensures Aged(s, s', id) && SettledOnlySo(s, s', id, false)
  {}

  /** One event in the life of one league. */
  lemma LifeStep(h: Platform, s: State, trees: Trees, event: Event, id: U64)
    requires Inv(h, s, trees)
    ensures Aged(s, Apply(h, s, event), id)
    ensures SettledOnlySo(s, Apply(h, s, event), id, Settles(h, s, event, id))
  {
    hide Inv, Exec, Transfer, RequiredApprovals, Effect, Aged, SettledOnlySo;
    if id in s.leagues { NotActive(h, s, trees, id); }
    var s' := Apply(h, s, event);
    if Succeeds(h, s, event) {
      var Called(env, call) := event;
      if LeagueCall(call) {
        LeagueEffect(h, s, env, call);
        LeagueCallAges(s, s', call, id);
      } else {
        if Administrative(call) {
          AdministrativeKeeps(h, s, env, call);
        } else {
          WithdrawalCallFrame(h, s, env, call);
        }
        SameLeagues(s, s', id);
      }
    } else {
      SameLeagues(s, s', id);
    }
  }

  predicate Creates(h: Platform, s: State, event: Event, id: U64) {
    Succeeds(h, s, event) && event.call.CreateLeague? && event.call.id == id
  }

  /** A league appears only by its creation, on the terms given there. */
  lemma BirthStep(h: Platform, s: State, event: Event, id: U64)
    ensures Creates(h, s, event, id) ==>
              var call := event.call;
              && id !in s.leagues && id in Apply(h, s, event).leagues && call.creator in event.env.auth
              && Apply(h, s, event).leagues[id].league
                 == League(call.creator, call.entryFee, call.asset, 0, 0, Upcoming)
    ensures id in Apply(h, s, event).leagues && id !in s.leagues ==> Creates(h, s, event, id)
  {
    if Succeeds(h, s, event) {
      var Called(env, call) := event;
      if call.CreateLeague? { CreatorSigned(h, s, env, call); }
      hide Exec, Transfer, RequiredApprovals, Suits, Changed;
      if Administrative(call) {
        AdministrativeKeeps(h, s, env, call);
      } else if WithdrawalCall(call) {
        WithdrawalCallFrame(h, s, env, call);
      } else {
        LeagueEffect(h, s, env, call);
      }
    }
  }

  lemma CreatorSigned(h: Platform, s: State, env: Env, call: Call)
    requires call.CreateLeague? && Exec(h, s, env, call).Ok?
    ensures call.creator in env.auth
  {}

  /** The terms of a league are those its creator signed for. */
  lemma {:induction false} LeagueOrigin(h: Platform, trees: Trees, states: seq<State>, events: seq<Event>, id: U64,
                                        n: nat)
    returns (j: nat)
    requires Run(h, trees, states, events) && n <= |events| && id in states[n].leagues
    ensures j < n && Creates(h, states[j], events[j], id) && events[j].call.creator in events[j].env.auth
    ensures var league, call := states[n].leagues[id].league, events[j].call;
            league.creator == call.creator && league.entryFee == call.entryFee && league.asset == call.asset
  {
    hide Run, Inv, Apply, Fair, Creates;
    RunStart(h, trees, states, events);
    assert n > 0;
    RunStep(h, trees, states, events, n - 1);
    BirthStep(h, states[n - 1], events[n - 1], id);
    LifeStep(h, states[n - 1], trees, events[n - 1], id);
    if id in states[n - 1].leagues {
      j := LeagueOrigin(h, trees, states, events, id, n - 1);
    } else {
      j := n - 1;
    }
  }

  /** From any state of a run to any later one: the terms are those agreed, and a closed league is left as it was. */
  lemma {:induction false} LeagueLife(h: Platform, trees: Trees, states: seq<State>, events: seq<Event>, id: U64,
                                      m: nat, n: nat)
    requires Run(h, trees, states, events) && m <= n <= |events|
    ensures Aged(states[m], states[n], id)
  {
    hide Run, Inv, Apply, Fair, Settles, SettledOnlySo;
    RunStart(h, trees, states, events);
    if m < n {
      LeagueLife(h, trees, states, events, id, m, n - 1);
      RunStep(h, trees, states, events, n - 1);
      LifeStep(h, states[n - 1], trees, events[n - 1], id);
    }
  }

  /** No league is ever settled twice, by any mix of settlement entry points, nor settled once cancelled. */
  lemma SettledAtMostOnce(h: Platform, trees: Trees, states: seq<State>, events: seq<Event>, id: U64, m: nat, n: nat)
    requires Run(h, trees, states, events) && m <= n < |events|
    requires id in states[m].leagues && states[m].leagues[id].Closed()
    ensures !Settles(h, states[n], events[n], id)
    ensures id in states[n + 1].leagues
            && states[n + 1].leagues[id].league.status == states[m].leagues[id].league.status
  {
    hide Run, Inv, Apply, Fair, Settles;
    RunStart(h, trees, states, events);
    LeagueLife(h, trees, states, events, id, m, n);
    RunStep(h, trees, states, events, n);
    LifeStep(h, states[n], trees, events[n], id);
  }

  /** A settled league was settled by exactly one event, which found it open. */
  lemma {:induction false} SettlementOrigin(h: Platform, trees: Trees, states: seq<State>, events: seq<Event>,
                                            id: U64, n: nat)
    returns (j: nat)
    requires Run(h, trees, states, events) && n <= |events|
    requires id in states[n].leagues && states[n].leagues[id].league.status == Settled
    ensures j < n && Settles(h, states[j], events[j], id)
    ensures id in states[j].leagues && states[j].leagues[id].league.status == Upcoming
    ensures forall k :: 0 <= k < n && k != j ==> !Settles(h, states[k], events[k], id)
  {
    hide Run, Inv, Apply, Fair, Settles;
    RunStart(h, trees, states, events);
    assert n > 0;
    RunStep(h, trees, states, events, n - 1);
    LifeStep(h, states[n - 1], trees, events[n - 1], id);
    if Settles(h, states[n - 1], events[n - 1], id) {
      j := n - 1;
      NotActive(h, states[j], trees, id);
      forall k | 0 <= k < n && k != j ensures !Settles(h, states[k], events[k], id) {
        RunStep(h, trees, states, events, k);
        LifeStep(h, states[k], trees, events[k], id);
        LeagueLife(h, trees, states, events, id, k + 1, j);
      }
    } else {
      j := SettlementOrigin(h, trees, states, events, id, n - 1);
    }
  }

  /** The `Active` status is declared but never assigned. */
  lemma NotActive(h: Platform, s: State, trees: Trees, id: U64)
    requires Inv(h, s, trees) && id in s.leagues
    ensures s.leagues[id].league.status != Active
  {
    assert PartitionOk(h, id, s.leagues[id], trees(id));
  }
}
