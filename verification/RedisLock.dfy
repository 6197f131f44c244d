/**
 The distributed lock: any number of `withLock` calls on one resource, interleaved step by step with
 each other and with the passing of time. Calls are named by their unique lock values.
 */
module RedisLock {
  import opened Wrappers

  datatype LockOptions = LockOptions(ttlMs: int, retryCount: int, deadline: Option<int>)

  /** The options of each call, by its lock value. */
  type Plan = string -> LockOptions

  datatype Outcome = Returned(finishedAt: int) | Conflict | Locked | Threw

  /** Where a call stands; `since` is when it acquired the lock. */
  datatype Phase =
    | Trying(attempt: int)
    | Acquired(since: int)
    | Running(since: int)
    | Finished(since: int, finishedAt: int)
    | Releasing(since: int, outcome: Outcome)
    | Over(outcome: Outcome)

  /** SET with EX: the stored value and the instant it expires. */
  datatype Entry = Entry(token: string, expiresAt: int)

  datatype World = World(now: int, key: Option<Entry>, calls: map<string, Phase>)

  const START: World := World(0, None, map[])

  /** Redis takes whole seconds: ttlMs rounded up, at least one. */
  function TtlSeconds(ttlMs: int): int {
    var up := (ttlMs + 999) / 1000;
    if up >= 1 then up else 1
  }

  lemma TtlNeverShort(ttlMs: int)
    ensures TtlSeconds(ttlMs) * 1000 >= ttlMs && TtlSeconds(ttlMs) >= 1
    ensures ttlMs >= 1 ==> TtlSeconds(ttlMs) * 1000 < ttlMs + 1000
  {}

  function Ttl(plan: Plan, token: string): int { TtlSeconds(plan(token).ttlMs) * 1000 }

  function Visible(w: World): Option<Entry> {
    if w.key.Some? && w.now < w.key.value.expiresAt then w.key else None
  }

  /** `assertMonotonicDeadline` throws at the deadline and after it. */
  predicate InTime(plan: Plan, token: string, now: int) {
    plan(token).deadline.None? || now < plan(token).deadline.value
  }

  datatype Action =
    | Advance(to: int)
    | Call(token: string)
    | Attempt(token: string)
    | StartOperation(token: string)
    | FinishOperation(token: string)
    | FailOperation(token: string)
    | FinalCheck(token: string)
    | Release(token: string)

  predicate Enabled(w: World, a: Action) {
    match a
    case Advance(to) => to >= w.now
    case Call(t) => t !in w.calls
    case Attempt(t) => t in w.calls && w.calls[t].Trying?
    case StartOperation(t) => t in w.calls && w.calls[t].Acquired?
    case FinishOperation(t) => t in w.calls && w.calls[t].Running?
    case FailOperation(t) => t in w.calls && w.calls[t].Running?
    case FinalCheck(t) => t in w.calls && w.calls[t].Finished?
    case Release(t) => t in w.calls && w.calls[t].Releasing?
  }

  /** One turn of the retry loop: deadline, then SET NX EX. */
  function Attempted(plan: Plan, w: World, t: string, attempt: int): World {
    if attempt >= plan(t).retryCount then w.(calls := w.calls[t := Over(Conflict)])
    else if !InTime(plan, t, w.now) then w.(calls := w.calls[t := Over(Locked)])
    else if Visible(w).Some? then w.(calls := w.calls[t := Trying(attempt + 1)])
    else w.(key := Some(Entry(t, w.now + Ttl(plan, t))), calls := w.calls[t := Acquired(w.now)])
  }

  /** Compare and delete: only the value that is still there removes the key. */
  function Deleted(w: World, t: string): Option<Entry> {
    if Visible(w).Some? && w.key.value.token == t then None else w.key
  }

  function Step(plan: Plan, w: World, a: Action): World
    requires Enabled(w, a)
  {
    match a
    case Advance(to) => w.(now := to)
    case Call(t) => w.(calls := w.calls[t := if InTime(plan, t, w.now) then Trying(0) else Over(Locked)])
    case Attempt(t) => Attempted(plan, w, t, w.calls[t].attempt)
    case StartOperation(t) =>
      var since := w.calls[t].since;
      w.(calls := w.calls[t := if InTime(plan, t, w.now) then Running(since) else Releasing(since, Locked)])
    case FinishOperation(t) => w.(calls := w.calls[t := Finished(w.calls[t].since, w.now)])
    case FailOperation(t) => w.(calls := w.calls[t := Releasing(w.calls[t].since, Threw)])
    case FinalCheck(t) =>
      var Finished(since, at) := w.calls[t];
      w.(calls := w.calls[t := Releasing(since, if InTime(plan, t, w.now) then Returned(at) else Locked)])
    case Release(t) => w.(key := Deleted(w, t), calls := w.calls[t := Over(w.calls[t].outcome)])
  }

  /** From acquiring the lock to letting go of it; the operation runs inside. */
  predicate InSection(w: World, t: string) {
    t in w.calls && !w.calls[t].Trying? && !w.calls[t].Over?
  }

  /** A call in its section either still has its key in Redis or has outlived its time to live. */
  ghost predicate Covered(plan: Plan, w: World, t: string) {
    InSection(w, t) ==>
      var since := w.calls[t].since;
      since <= w.now && (w.key == Some(Entry(t, since + Ttl(plan, t))) || w.now >= since + Ttl(plan, t))
  }

  /** Two calls in their sections together: the one that came first had outlived its time to live by then. */
  ghost predicate Apart(plan: Plan, w: World, a: string, b: string) {
    a != b && InSection(w, a) && InSection(w, b) ==>
      var x, y := w.calls[a].since, w.calls[b].since;
      x + Ttl(plan, a) <= y || y + Ttl(plan, b) <= x
  }

  ghost predicate OnTime(plan: Plan, w: World, t: string) {
    t in w.calls ==>
      match w.calls[t]
      case Finished(_, at) => at <= w.now
      case Releasing(_, Returned(at)) => InTime(plan, t, at)
      case Over(Returned(at)) => InTime(plan, t, at)
      case _ => true
  }

  ghost predicate LockInv(plan: Plan, w: World) {
    && (forall t :: Covered(plan, w, t))
    && (forall a, b :: Apart(plan, w, a, b))
    && (forall t :: OnTime(plan, w, t))
  }

  lemma StepCovered(plan: Plan, w: World, a: Action, t: string)
    requires LockInv(plan, w) && Enabled(w, a)
    ensures Covered(plan, Step(plan, w, a), t)
  {
    assert Covered(plan, w, t);
    if a.Attempt? { assert Covered(plan, w, a.token); }
  }

  lemma StepApart(plan: Plan, w: World, act: Action, a: string, b: string)
    requires LockInv(plan, w) && Enabled(w, act)
    ensures Apart(plan, Step(plan, w, act), a, b)
  {
    assert Apart(plan, w, a, b) && Covered(plan, w, a) && Covered(plan, w, b);
  }

  lemma StepOnTime(plan: Plan, w: World, a: Action, t: string)
    requires LockInv(plan, w) && Enabled(w, a)
    ensures OnTime(plan, Step(plan, w, a), t)
  {
    assert OnTime(plan, w, t);
  }

  lemma StepKeeps(plan: Plan, w: World, a: Action)
    requires LockInv(plan, w) && Enabled(w, a)
    ensures LockInv(plan, Step(plan, w, a))
  {
    var w' := Step(plan, w, a);
    forall t ensures Covered(plan, w', t) { StepCovered(plan, w, a, t); }
    forall x, y ensures Apart(plan, w', x, y) { StepApart(plan, w, a, x, y); }
    forall t ensures OnTime(plan, w', t) { StepOnTime(plan, w, a, t); }
  }

  ghost predicate Run(plan: Plan, worlds: seq<World>, actions: seq<Action>) {
    && |worlds| == |actions| + 1 && worlds[0] == START
    && (forall i {:trigger actions[i]} :: 0 <= i < |actions| ==>
        Enabled(worlds[i], actions[i]) && worlds[i + 1] == Step(plan, worlds[i], actions[i]))
  }

  lemma {:induction false} RunKeeps(plan: Plan, worlds: seq<World>, actions: seq<Action>, n: nat)
    requires Run(plan, worlds, actions) && n <= |actions|
    ensures LockInv(plan, worlds[n])
  {
    if n > 0 {
      RunKeeps(plan, worlds, actions, n - 1);
      assert Enabled(worlds[n - 1], actions[n - 1]);
      StepKeeps(plan, worlds[n - 1], actions[n - 1]);
    }
  }

  /** A key still in Redis is that of a call in its section, and expires when that call's time to live is over. */
  ghost predicate KeyHeld(plan: Plan, w: World) {
    Visible(w).Some? ==>
      var t := w.key.value.token;
      InSection(w, t) && w.key == Some(Entry(t, w.calls[t].since + Ttl(plan, t)))
  }

  lemma StepKeyHeld(plan: Plan, w: World, a: Action)
    requires LockInv(plan, w) && KeyHeld(plan, w) && Enabled(w, a)
    ensures KeyHeld(plan, Step(plan, w, a))
  {
    if w.key.Some? { assert Covered(plan, w, w.key.value.token); }
    hide LockInv;
  }

  lemma {:induction false} RunKeyHeld(plan: Plan, worlds: seq<World>, actions: seq<Action>, n: nat)
    requires Run(plan, worlds, actions) && n <= |actions|
    ensures KeyHeld(plan, worlds[n])
  {
    if n > 0 {
      RunKeyHeld(plan, worlds, actions, n - 1);
      RunKeeps(plan, worlds, actions, n - 1);
      assert Enabled(worlds[n - 1], actions[n - 1]);
      StepKeyHeld(plan, worlds[n - 1], actions[n - 1]);
    }
  }

  /**
   Exactly when an attempt acquires the lock: it is in time and has turns left, and every call in its section
   has outlived its time to live. So a release frees the lock at once, and so does the end of a time to live.
   */
  lemma AcquiresIff(plan: Plan, worlds: seq<World>, actions: seq<Action>, n: nat, t: string)
    requires Run(plan, worlds, actions) && n < |actions| && actions[n] == Attempt(t)
    ensures t in worlds[n].calls && worlds[n].calls[t].Trying? && t in worlds[n + 1].calls
    ensures worlds[n + 1].calls[t].Acquired?
            <==> worlds[n].calls[t].attempt < plan(t).retryCount && InTime(plan, t, worlds[n].now)
                 && forall b :: InSection(worlds[n], b) ==> worlds[n].calls[b].since + Ttl(plan, b) <= worlds[n].now
    ensures worlds[n + 1].calls[t].Acquired? ==> worlds[n + 1].calls[t].since == worlds[n].now
  {
    RunKeeps(plan, worlds, actions, n);
    RunKeyHeld(plan, worlds, actions, n);
    var w := worlds[n];
    assert Enabled(w, actions[n]) && worlds[n + 1] == Step(plan, w, actions[n]);
    forall b | InSection(w, b) ensures Covered(plan, w, b) {}
    hide LockInv, Run;
  }

  /** Attempts that `t` has made. */
  function Attempts(actions: seq<Action>, t: string, n: nat): nat
    requires n <= |actions|
  {
    if n == 0 then 0 else Attempts(actions, t, n - 1) + (if actions[n - 1] == Attempt(t) then 1 else 0)
  }

  ghost predicate Counted(plan: Plan, w: World, t: string, attempts: nat) {
    && (t !in w.calls ==> attempts == 0)
    && (t in w.calls && w.calls[t].Trying? ==> w.calls[t].attempt == attempts)
    && (t in w.calls && w.calls[t] == Over(Conflict) ==> attempts > plan(t).retryCount)
    && (t in w.calls && w.calls[t].Releasing? ==> w.calls[t].outcome != Conflict)
  }

  /** A conflict is reported only after every turn has been tried. */
  lemma {:induction false} ConflictAfterAllTurns(plan: Plan, worlds: seq<World>, actions: seq<Action>, n: nat,
                                                 t: string)
    requires Run(plan, worlds, actions) && n <= |actions|
    ensures Counted(plan, worlds[n], t, Attempts(actions, t, n))
  {
    if n > 0 {
      ConflictAfterAllTurns(plan, worlds, actions, n - 1, t);
      assert Enabled(worlds[n - 1], actions[n - 1]);
      TurnCounted(plan, worlds[n - 1], actions[n - 1], t, Attempts(actions, t, n - 1));
    }
  }

  lemma TurnCounted(plan: Plan, w: World, a: Action, t: string, attempts: nat)
    requires Enabled(w, a) && Counted(plan, w, t, attempts)
    ensures Counted(plan, Step(plan, w, a), t, attempts + (if a == Attempt(t) then 1 else 0))
  {}

  /** Mutual exclusion: sections overlap only if the earlier one outlived its time to live before the later began. */
  lemma MutualExclusion(plan: Plan, worlds: seq<World>, actions: seq<Action>, n: nat, a: string, b: string)
    requires Run(plan, worlds, actions) && n <= |actions| && a != b
    requires InSection(worlds[n], a) && InSection(worlds[n], b)
    requires worlds[n].calls[a].since <= worlds[n].calls[b].since
    ensures worlds[n].calls[a].since + plan(a).ttlMs <= worlds[n].calls[a].since + Ttl(plan, a)
            <= worlds[n].calls[b].since <= worlds[n].now
  {
    RunKeeps(plan, worlds, actions, n);
    assert Apart(plan, worlds[n], a, b) && Covered(plan, worlds[n], a) && Covered(plan, worlds[n], b);
    TtlNeverShort(plan(a).ttlMs);
    TtlNeverShort(plan(b).ttlMs);
  }

  /** A call in its section keeps its key through anyone else's step, late releases included, until it expires. */
  lemma KeyIsSafe(plan: Plan, worlds: seq<World>, actions: seq<Action>, n: nat, t: string)
    requires Run(plan, worlds, actions) && n < |actions| && InSection(worlds[n], t)
    requires actions[n] != Release(t)
    requires worlds[n + 1].now < worlds[n].calls[t].since + Ttl(plan, t)
    ensures Visible(worlds[n]) == Some(Entry(t, worlds[n].calls[t].since + Ttl(plan, t)))
    ensures Visible(worlds[n + 1]) == Visible(worlds[n]) && InSection(worlds[n + 1], t)
  {
    RunKeeps(plan, worlds, actions, n);
    var w := worlds[n];
    assert Covered(plan, w, t);
    assert Enabled(w, actions[n]) && worlds[n + 1] == Step(plan, w, actions[n]);
    TimeAdvances(plan, w, actions[n]);
  }

  lemma TimeAdvances(plan: Plan, w: World, a: Action)
    requires Enabled(w, a)
    ensures w.now <= Step(plan, w, a).now
  {}

  /** A result is returned only by an operation that finished before the deadline. */
  lemma ReturnsOnlyInTime(plan: Plan, worlds: seq<World>, actions: seq<Action>, n: nat, t: string, deadline: int)
    requires Run(plan, worlds, actions) && n <= |actions| && t in worlds[n].calls
    requires worlds[n].calls[t].Over? && worlds[n].calls[t].outcome.Returned? && plan(t).deadline == Some(deadline)
    ensures worlds[n].calls[t].outcome.finishedAt < deadline
  {
    RunKeeps(plan, worlds, actions, n);
    assert OnTime(plan, worlds[n], t);
  }
}
