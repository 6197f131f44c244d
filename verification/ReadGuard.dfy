/** `PrimaryReadGuard.run`: a concurrency cap and a circuit breaker around an awaited query. */
module ReadGuard {
  import opened Wrappers

  datatype Options = Options(maxConcurrent: int, failureThreshold: int, cooldownMs: int)

  /** The four fields, and the calls now awaiting their query, each with whether it began half open. */
  datatype Guard = Guard(active: int, failures: int, openUntil: int, probing: bool, inFlight: map<nat, bool>)

  const IDLE: Guard := Guard(0, 0, 0, false, map[])

  predicate Digit(c: char) { '0' <= c <= '9' }

  /** A P2xxx code is the caller's fault, except for pool and transaction timeouts. */
  predicate Counts(code: Option<string>) {
    code.None? || code.value in {"P2024", "P2028"}
    || !(|code.value| == 5 && code.value[0] == 'P' && code.value[1] == '2'
         && Digit(code.value[2]) && Digit(code.value[3]) && Digit(code.value[4]))
  }

  // ---------- steps ----------

  predicate Admits(o: Options, g: Guard, now: int) {
    g.active < o.maxConcurrent && now >= g.openUntil && !(g.openUntil > 0 && g.probing)
  }

  function Begun(g: Guard, id: nat): Guard {
    var halfOpen := g.openUntil > 0;
    Guard(g.active + 1, g.failures, g.openUntil, g.probing || halfOpen, g.inFlight[id := halfOpen])
  }

  function Left(g: Guard, id: nat): Guard
    requires id in g.inFlight
  {
    g.(active := g.active - 1, probing := g.probing && !g.inFlight[id], inFlight := g.inFlight - {id})
  }

  function Succeeded(g: Guard, id: nat): Guard
    requires id in g.inFlight
  {
    Left(g.(failures := 0, openUntil := 0), id)
  }

  function Failed(o: Options, g: Guard, id: nat, code: Option<string>, now: int): Guard
    requires id in g.inFlight
  {
    var failures := if Counts(code) then g.failures + 1 else g.failures;
    var openUntil := if Counts(code) && failures >= o.failureThreshold then now + o.cooldownMs else g.openUntil;
    Left(g.(failures := failures, openUntil := openUntil), id)
  }

  /** What can happen next: a call is made, or one in flight ends, at some instant. */
  datatype Event = Run(id: nat, now: int) | Success(id: nat) | Failure(id: nat, code: Option<string>, now: int)

  predicate Possible(o: Options, g: Guard, e: Event) {
    match e
    case Run(id, now) => id !in g.inFlight && now > 0
    case Success(id) => id in g.inFlight
    case Failure(id, _, now) => id in g.inFlight && now > 0 && now + o.cooldownMs > 0
  }

  function After(o: Options, g: Guard, e: Event): Guard
    requires Possible(o, g, e)
  {
    match e
    case Run(id, now) => if Admits(o, g, now) then Begun(g, id) else g
    case Success(id) => Succeeded(g, id)
    case Failure(id, code, now) => Failed(o, g, id, code, now)
  }

  // ---------- the class ----------

  class PrimaryReadGuard {
    const options: Options
    var active: int
    var failures: int
    var openUntil: int
    var probing: bool
    ghost var inFlight: map<nat, bool>

    ghost function State(): Guard
      reads this
    {
      Guard(active, failures, openUntil, probing, inFlight)
    }

    constructor (options: Options)
      ensures this.options == options && State() == IDLE
    {
      this.options := options;
      active, failures, openUntil, probing, inFlight := 0, 0, 0, false, map[];
    }

    /** `run` up to its await; `halfOpen` is the local the rest of the call uses. */
    method Begin(ghost id: nat, now: int) returns (admitted: bool, halfOpen: bool)
      modifies this
      ensures admitted == Admits(options, old(State()), now)
      ensures State() == if admitted then Begun(old(State()), id) else old(State())
      ensures admitted ==> inFlight[id] == halfOpen
    {
      halfOpen := openUntil > 0;
      if active >= options.maxConcurrent || now < openUntil || (halfOpen && probing) { return false, halfOpen; }
      active := active + 1;
      if halfOpen { probing := true; }
      inFlight := inFlight[id := halfOpen];
      admitted := true;
    }

    /** `run` after its query resolved. */
    method Resolve(ghost id: nat, halfOpen: bool)
      requires id in inFlight && inFlight[id] == halfOpen
      modifies this
      ensures State() == Succeeded(old(State()), id)
    {
      failures := 0;
      openUntil := 0;
      Finally(id, halfOpen);
    }

    /** `run` after its query was rejected. */
    method Reject(ghost id: nat, halfOpen: bool, code: Option<string>, now: int)
      requires id in inFlight && inFlight[id] == halfOpen
      modifies this
      ensures State() == Failed(options, old(State()), id, code, now)
    {
      if Counts(code) {
        failures := failures + 1;
        if failures >= options.failureThreshold { openUntil := now + options.cooldownMs; }
      }
      Finally(id, halfOpen);
    }

    method Finally(ghost id: nat, halfOpen: bool)
      requires id in inFlight && inFlight[id] == halfOpen
      modifies this
      ensures State() == Left(old(State()), id)
    {
      active := active - 1;
      if halfOpen { probing := false; }
      inFlight := inFlight - {id};
    }
  }

  // ---------- every interleaving ----------

  ghost predicate Consistent(o: Options, g: Guard) {
    && g.active == |g.inFlight| && 0 <= g.active <= o.maxConcurrent
    && (g.probing <==> exists id :: id in g.inFlight && g.inFlight[id])
    && (forall a, b :: a in g.inFlight && b in g.inFlight && g.inFlight[a] && g.inFlight[b] ==> a == b)
    && g.failures >= 0 && g.openUntil >= 0
    && (g.openUntil > 0 <==> g.failures >= o.failureThreshold)
  }

  lemma BeginKeeps(o: Options, g: Guard, id: nat, now: int)
    requires Consistent(o, g) && id !in g.inFlight && Admits(o, g, now)
    ensures Consistent(o, Begun(g, id))
  {
    var g' := Begun(g, id);
    assert g'.inFlight.Keys == g.inFlight.Keys + {id};
    if g.openUntil > 0 { assert g'.inFlight[id]; }
    if g.probing {
      var p :| p in g.inFlight && g.inFlight[p];
      assert p in g'.inFlight && g'.inFlight[p];
    }
  }

  lemma LeaveKeeps(o: Options, g: Guard, id: nat)
    requires Consistent(o, g) && id in g.inFlight
    ensures Consistent(o, Left(g, id))
  {
    var g' := Left(g, id);
    assert g'.inFlight.Keys == g.inFlight.Keys - {id};
    if g'.probing {
      var p :| p in g.inFlight && g.inFlight[p];
      assert p in g'.inFlight && g'.inFlight[p];
    }
  }

  lemma StepKeeps(o: Options, g: Guard, e: Event)
    requires o.failureThreshold >= 1 && Consistent(o, g) && Possible(o, g, e)
    ensures Consistent(o, After(o, g, e))
  {
    match e
    case Run(id, now) => if Admits(o, g, now) { BeginKeeps(o, g, id, now); }
    case Success(id) => LeaveKeeps(o, g.(failures := 0, openUntil := 0), id);
    case Failure(id, code, now) =>
      var failures := if Counts(code) then g.failures + 1 else g.failures;
      var openUntil := if Counts(code) && failures >= o.failureThreshold then now + o.cooldownMs else g.openUntil;
      LeaveKeeps(o, g.(failures := failures, openUntil := openUntil), id);
  }

  ghost predicate Interleaving(o: Options, states: seq<Guard>, events: seq<Event>) {
    && |states| == |events| + 1 && states[0] == IDLE
    && (forall i {:trigger events[i]} :: 0 <= i < |events| ==>
        Possible(o, states[i], events[i]) && states[i + 1] == After(o, states[i], events[i]))
  }

  lemma InterleavingStep(o: Options, states: seq<Guard>, events: seq<Event>, n: nat)
    requires Interleaving(o, states, events) && n < |events|
    ensures states[0] == IDLE && Possible(o, states[n], events[n])
    ensures states[n + 1] == After(o, states[n], events[n])
  {
    assert Possible(o, states[n], events[n]);
    hide Possible, After;
  }

  /** In every state of every interleaving the four fields say exactly what is going on. */
  lemma {:induction false} AlwaysConsistent(o: Options, states: seq<Guard>, events: seq<Event>, n: nat)
    requires o.maxConcurrent >= 0 && o.failureThreshold >= 1
    requires Interleaving(o, states, events) && n <= |events|
    ensures Consistent(o, states[n])
  {
    ZeroThresholdDisagrees(o);
    hide Consistent, After, Possible;
    if n > 0 {
      InterleavingStep(o, states, events, n - 1);
      hide Interleaving;
      AlwaysConsistent(o, states, events, n - 1);
      StepKeeps(o, states[n - 1], events[n - 1]);
    }
  }

  // ---------- what the events say ----------

  /** Failures that count, since the last success. */
  function FailuresSince(events: seq<Event>, n: nat): nat
    requires n <= |events|
  {
    if n == 0 then 0
    else
      match events[n - 1]
      case Success(_) => 0
      case Failure(_, code, _) => FailuresSince(events, n - 1) + (if Counts(code) then 1 else 0)
      case Run(_, _) => FailuresSince(events, n - 1)
  }

  /** The instant of the last failure that counts. */
  function LastCounted(events: seq<Event>, n: nat): Option<int>
    requires n <= |events|
  {
    if n == 0 then None
    else
      match events[n - 1]
      case Failure(_, code, now) => if Counts(code) then Some(now) else LastCounted(events, n - 1)
      case _ => LastCounted(events, n - 1)
  }

  lemma {:induction false} CountedIsThere(events: seq<Event>, n: nat)
    requires n <= |events| && FailuresSince(events, n) > 0
    ensures LastCounted(events, n).Some?
  {
    if !(events[n - 1].Failure? && Counts(events[n - 1].code)) { CountedIsThere(events, n - 1); }
  }

  /** The fields are those the events call for: a count, and a cooldown from the last failure counted. */
  lemma {:induction false} FieldsFollowEvents(o: Options, states: seq<Guard>, events: seq<Event>, n: nat)
    requires o.failureThreshold >= 1 && Interleaving(o, states, events) && n <= |events|
    ensures states[n].failures == FailuresSince(events, n)
    ensures FailuresSince(events, n) >= o.failureThreshold ==>
              LastCounted(events, n).Some? && states[n].openUntil == LastCounted(events, n).value + o.cooldownMs
    ensures FailuresSince(events, n) < o.failureThreshold ==> states[n].openUntil == 0
  {
    if n > 0 {
      InterleavingStep(o, states, events, n - 1);
      hide Interleaving, Counts;
      FieldsFollowEvents(o, states, events, n - 1);
    }
  }

  /**
   Never stuck, and never early: a call is admitted iff there is capacity and, once enough failures have been
   counted since the last success, the cooldown from the last of them is over and no probe is in flight.
   */
  lemma NeverStuckOpen(o: Options, states: seq<Guard>, events: seq<Event>, n: nat, now: int)
    requires o.maxConcurrent >= 0 && o.failureThreshold >= 1
    requires Interleaving(o, states, events) && n <= |events|
    ensures var g := states[n];
            Admits(o, g, now) <==>
              |g.inFlight| < o.maxConcurrent
              && (FailuresSince(events, n) >= o.failureThreshold ==>
                    LastCounted(events, n).Some? && now >= LastCounted(events, n).value + o.cooldownMs
                    && forall id :: id in g.inFlight ==> !g.inFlight[id])
              && (FailuresSince(events, n) < o.failureThreshold ==> now >= 0)
  {
    AlwaysConsistent(o, states, events, n);
    FieldsFollowEvents(o, states, events, n);
  }

  /** A call is in flight from its admission to its end, and is a probe iff the breaker had tripped by then. */
  lemma {:induction false} InFlightSince(o: Options, states: seq<Guard>, events: seq<Event>, n: nat, id: nat)
    returns (i: nat)
    requires o.maxConcurrent >= 0 && o.failureThreshold >= 1
    requires Interleaving(o, states, events) && n <= |events| && id in states[n].inFlight
    ensures i < n && events[i].Run? && events[i].id == id && Admits(o, states[i], events[i].now)
    ensures forall k :: i < k < n ==> events[k].id != id || events[k].Run?
    ensures states[n].inFlight[id] <==> FailuresSince(events, i) >= o.failureThreshold
  {
    hide FailuresSince, Counts;
    InterleavingStep(o, states, events, n - 1);
    AlwaysConsistent(o, states, events, n - 1);
    FieldsFollowEvents(o, states, events, n - 1);
    hide Interleaving, Consistent;
    if events[n - 1].Run? && events[n - 1].id == id && Admits(o, states[n - 1], events[n - 1].now) {
      i := n - 1;
    } else {
      i := InFlightSince(o, states, events, n - 1, id);
    }
  }

  /** Which rejections count: timeouts of the pool and of transactions do, other `P2` codes do not, the rest do. */
  lemma CountedCodes()
    ensures Counts(None) && Counts(Some("P2024")) && Counts(Some("P2028")) && Counts(Some("P1001")) && Counts(Some(""))
    ensures !Counts(Some("P2002")) && !Counts(Some("P2025"))
    ensures Counts(Some("P202")) && Counts(Some("P20025")) && Counts(Some("P2X25"))
  {}

  /** With a threshold below one the open flag and the failure count disagree from the start. */
  lemma ZeroThresholdDisagrees(o: Options)
    requires o.maxConcurrent >= 0
    ensures Consistent(o, IDLE) <==> o.failureThreshold >= 1
  {}
}
