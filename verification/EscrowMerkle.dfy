/** Merkle-settled leagues over whole runs: who is paid, how often, and how much in total. */
module EscrowMerkle {
  import opened Wrappers
  import opened Host
  import opened Sums
  import opened Commitments
  import opened EscrowModel
  import opened EscrowMoney
  import opened EscrowEffects
  import opened EscrowRuns

  function ClaimedOf(s: State, id: U64): set<Address> {
    if id in s.leagues then s.leagues[id].claimed else {}
  }

  predicate Claims(h: Platform, s: State, event: Event, id: U64) {
    Succeeds(h, s, event) && event.call.ClaimMerkle? && event.call.id == id
  }

  /** Everything paid out on branch proofs for one league so far. */
  ghost function PaidOnProofs(h: Platform, states: seq<State>, events: seq<Event>, id: U64, n: nat): int
    requires n <= |events| < |states|
  {
    if n == 0 then 0
    else
      PaidOnProofs(h, states, events, id, n - 1)
      + (if Claims(h, states[n - 1], events[n - 1], id) then events[n - 1].call.prize.amount else 0)
  }

  /** Only a successful claim marks a winner, who was not marked before. */
  lemma ClaimedStep(h: Platform, s: State, event: Event, id: U64)
    ensures ClaimedOf(Apply(h, s, event), id)
              == ClaimedOf(s, id) + (if Claims(h, s, event, id) then {event.call.prize.winner} else {})
    ensures Claims(h, s, event, id) ==> event.call.prize.winner !in ClaimedOf(s, id)
  {
    if Succeeds(h, s, event) {
      var Called(env, call) := event;
      hide Exec, Transfer, RequiredApprovals, Named, RecordPrizes;
      if Administrative(call) {
        AdministrativeKeeps(h, s, env, call);
      } else if WithdrawalCall(call) {
        WithdrawalCallFrame(h, s, env, call);
      } else {
        LeagueEffect(h, s, env, call);
      }
    }
  }

  lemma {:induction false} ClaimedGrows(h: Platform, trees: Trees, states: seq<State>, events: seq<Event>, id: U64,
                                        m: nat, n: nat)
    requires Run(h, trees, states, events) && m <= n <= |events|
    ensures ClaimedOf(states[m], id) <= ClaimedOf(states[n], id)
  {
    hide Run, Inv, Apply, Fair, ClaimedOf, Claims;
    RunStart(h, trees, states, events);
    if m < n {
      ClaimedGrows(h, trees, states, events, id, m, n - 1);
      RunStep(h, trees, states, events, n - 1);
      ClaimedStep(h, states[n - 1], events[n - 1], id);
    }
  }

  /** No winner of a league is paid twice on proofs, whatever amounts or branches are presented. */
  lemma PaidAtMostOnce(h: Platform, trees: Trees, states: seq<State>, events: seq<Event>, id: U64, m: nat, n: nat)
    requires Run(h, trees, states, events) && m < n < |events|
    requires Claims(h, states[m], events[m], id) && Claims(h, states[n], events[n], id)
    ensures events[m].call.prize.winner != events[n].call.prize.winner
  {
    hide Run, Inv, Apply, Fair, ClaimedOf, Claims;
    RunStart(h, trees, states, events);
    RunStep(h, trees, states, events, m);
    ClaimedStep(h, states[m], events[m], id);
    ClaimedGrows(h, trees, states, events, id, m + 1, n);
    ClaimedStep(h, states[n], events[n], id);
  }

  lemma ClaimIsOwed(h: Platform, s: State, trees: Trees, event: Event, id: U64)
    requires Inv(h, s, trees) && Fair(h, s, trees, event) && Claims(h, s, event, id)
    ensures var owed, prize := Unclaimed(trees(id), ClaimedOf(s, id)), event.call.prize;
            prize.winner in owed && owed[prize.winner] == prize.amount
  {
    hide Inv, DoClaimMerkle, Unclaimed;
    ClaimMerkleIsOwed(h, s, trees, event.env, id, event.call.prize, event.call.branch);
  }

  lemma ProofStep(h: Platform, s: State, trees: Trees, event: Event, id: U64)
    requires Inv(h, s, trees) && Fair(h, s, trees, event)
    ensures Sum(Unclaimed(trees(id), ClaimedOf(Apply(h, s, event), id)))
              == Sum(Unclaimed(trees(id), ClaimedOf(s, id)))
                - (if Claims(h, s, event, id) then event.call.prize.amount else 0)
  {
    hide Inv, Apply, Fair, Unclaimed, Exec;
    ClaimedStep(h, s, event, id);
    if Claims(h, s, event, id) {
      ClaimIsOwed(h, s, trees, event, id);
      UnclaimedAfter(trees(id), ClaimedOf(s, id), event.call.prize.winner);
    } else {
      assert ClaimedOf(s, id) + {} == ClaimedOf(s, id);
    }
  }

  /** What has been paid and what is still unclaimed always make up the committed tree. */
  lemma {:induction false} ProofsConserve(h: Platform, trees: Trees, states: seq<State>, events: seq<Event>, id: U64,
                                          n: nat)
    requires Run(h, trees, states, events) && n <= |events|
    ensures PaidOnProofs(h, states, events, id, n) + Sum(Unclaimed(trees(id), ClaimedOf(states[n], id)))
              == Sum(Entitlements(trees(id)))
  {
    hide Run, Inv, Apply, Fair, Unclaimed, ClaimedOf, Claims, Entitlements;
    RunStart(h, trees, states, events);
    if n == 0 {
      NothingClaimed(states[0], trees, id);
    } else {
      ProofsConserve(h, trees, states, events, id, n - 1);
      RunStep(h, trees, states, events, n - 1);
      ProofStep(h, states[n - 1], trees, events[n - 1], id);
    }
  }

  lemma NothingClaimed(s: State, trees: Trees, id: U64)
    requires s.leagues == map[]
    ensures Unclaimed(trees(id), ClaimedOf(s, id)) == Entitlements(trees(id))
  {}

  /** The prize pool named at the Merkle settlement bounds everything ever paid on proofs. */
  lemma PaidWithinPool(h: Platform, trees: Trees, states: seq<State>, events: seq<Event>, id: U64, j: nat, n: nat)
    requires Run(h, trees, states, events) && j < |events| && n <= |events|
    requires Succeeds(h, states[j], events[j]) && events[j].call.SettleMerkle? && events[j].call.id == id
    ensures PaidOnProofs(h, states, events, id, n) <= events[j].call.pool
    ensures events[j].call.pool + events[j].call.fee == states[j].leagues[id].league.totalDeposited
  {
    var call := events[j].call;
    ProofsConserve(h, trees, states, events, id, n);
    assert FairStep(h, trees, states[j], events[j], states[j + 1]);
    SumNonNegative(Unclaimed(trees(id), ClaimedOf(states[n], id)));
    hide Run, Unclaimed, PaidOnProofs;
    SettleMerkleGuards(h, states[j], events[j].env, call.admin, id, call.root, call.pool, call.treasury, call.fee,
                       h.self);
  }
}
