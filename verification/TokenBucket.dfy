/** The complexity rate governor: a token bucket in memory and as a Redis script, over exact reals. */
module TokenBucket {
  import opened Wrappers

  const MINUTE: real := 60000.0

  datatype Bucket = Bucket(tokens: real, lastRefill: real)

  /** `retryAfter` is in seconds and given only with a refusal. */
  datatype Reply = Reply(allowed: bool, currentTokens: real, retryAfter: Option<real>)

  function Min(a: real, b: real): real { if a <= b then a else b }

  function Earned(max: real, ms: real): real { ms / MINUTE * max }

  function Refilled(b: Bucket, now: real, max: real): Bucket {
    Bucket(Min(b.tokens + Earned(max, now - b.lastRefill), max), now)
  }

  function Spent(b: Bucket, cost: real): Bucket {
    if b.tokens >= cost then b.(tokens := b.tokens - cost) else b
  }

  function Wait(cost: real, tokens: real, max: real): real
    requires max > 0.0
  {
    (cost - tokens) / max * 60.0
  }

  // ---------- the in-memory bucket ----------

  class InMemoryTokenBucket {
    var buckets: map<string, Bucket>

    constructor ()
      ensures buckets == map[]
    {
      buckets := map[];
    }

    ghost function Before(key: string, now: real, max: real): Bucket
      reads this
    {
      if key in buckets then buckets[key] else Bucket(max, now)
    }

    method RefillTokens(key: string, now: real, max: real)
      requires key in buckets
      modifies this
      ensures buckets == old(buckets)[key := Refilled(old(buckets)[key], now, max)]
    {
      hide Earned;
      var bucket := buckets[key];
      var elapsedMs := now - bucket.lastRefill;
      var tokensToAdd := Earned(max, elapsedMs);
      bucket := bucket.(tokens := if bucket.tokens + tokensToAdd <= max then bucket.tokens + tokensToAdd else max);
      bucket := bucket.(lastRefill := now);
      buckets := buckets[key := bucket];
    }

    method Consume(key: string, cost: real, now: real, max: real) returns (r: Reply)
      requires max > 0.0
      modifies this
      ensures var full := Refilled(old(Before(key, now, max)), now, max);
              && buckets == old(buckets)[key := Spent(full, cost)]
              && r == if full.tokens >= cost then Reply(true, full.tokens - cost, None)
                      else Reply(false, full.tokens, Some(Wait(cost, full.tokens, max)))
    {
      if key !in buckets { buckets := buckets[key := Bucket(max, now)]; }
      RefillTokens(key, now, max);
      var bucket := buckets[key];
      var currentTokens := bucket.tokens;
      if currentTokens >= cost {
        bucket := bucket.(tokens := bucket.tokens - cost);
        buckets := buckets[key := bucket];
        return Reply(true, bucket.tokens, None);
      }
      r := Reply(false, currentTokens, Some((cost - currentTokens) / max * 60.0));
    }
  }

  // ---------- a history of one key ----------

  datatype Request = Request(cost: real, now: real)

  ghost predicate Trace(trace: seq<Request>) {
    && (forall i :: 0 <= i < |trace| ==> trace[i].cost >= 0.0)
    && (forall i, j :: 0 <= i < j < |trace| ==> trace[i].now <= trace[j].now)
  }

  /** The bucket once request `n` has refilled it, and once it has been served. */
  function Full(trace: seq<Request>, n: nat, max: real): Bucket
    requires n < |trace|
    decreases n, 0
  {
    Refilled(if n == 0 then Bucket(max, trace[0].now) else Served(trace, n - 1, max), trace[n].now, max)
  }

  function Served(trace: seq<Request>, n: nat, max: real): Bucket
    requires n < |trace|
    decreases n, 1
  {
    Spent(Full(trace, n, max), trace[n].cost)
  }

  /** The cost accepted from request `i` to request `j`. */
  function AcceptedCost(trace: seq<Request>, i: nat, j: nat, max: real): real
    requires i <= j < |trace|
    decreases j
  {
    (if i == j then 0.0 else AcceptedCost(trace, i, j - 1, max))
    + (if Full(trace, j, max).tokens >= trace[j].cost then trace[j].cost else 0.0)
  }

  lemma EarnedAdds(max: real, a: real, b: real)
    ensures Earned(max, a) + Earned(max, b) == Earned(max, a + b)
  {}

  lemma EarnedNonNegative(max: real, ms: real)
    requires max >= 0.0 && ms >= 0.0
    ensures Earned(max, ms) >= 0.0
  {}

  lemma {:induction false} TokensInRange(trace: seq<Request>, n: nat, max: real)
    requires Trace(trace) && n < |trace| && max > 0.0
    ensures 0.0 <= Served(trace, n, max).tokens <= Full(trace, n, max).tokens <= max
    ensures Served(trace, n, max).lastRefill == trace[n].now
  {
    if n > 0 {
      TokensInRange(trace, n - 1, max);
      EarnedNonNegative(max, trace[n].now - trace[n - 1].now);
    }
  }

  lemma {:induction false} SpendingBound(trace: seq<Request>, i: nat, j: nat, max: real)
    requires Trace(trace) && i <= j < |trace| && max > 0.0
    ensures AcceptedCost(trace, i, j, max) + Served(trace, j, max).tokens
            <= max + Earned(max, trace[j].now - trace[i].now)
    decreases j
  {
    TokensInRange(trace, j, max);
    if i < j {
      SpendingBound(trace, i, j - 1, max);
      TokensInRange(trace, j - 1, max);
      EarnedAdds(max, trace[j - 1].now - trace[i].now, trace[j].now - trace[j - 1].now);
      hide Earned;
    }
  }

  /** A full bucket, and what it earns in `ms`. */
  function Allowance(max: real, ms: real): real {
    max * (1.0 + ms / 60000.0)
  }

  lemma AllowanceEarned(max: real, ms: real)
    ensures Allowance(max, ms) == max + Earned(max, ms)
  {
    var fraction := ms / MINUTE;
    assert max * (1.0 + fraction) == max + fraction * max;
  }

  /** Accepted cost between any two requests is at most a full bucket plus what the time between them earns. */
  lemma CostBound(trace: seq<Request>, i: nat, j: nat, max: real)
    requires Trace(trace) && i <= j < |trace| && max > 0.0
    ensures AcceptedCost(trace, i, j, max) <= Allowance(max, trace[j].now - trace[i].now)
  {
    SpendingBound(trace, i, j, max);
    TokensInRange(trace, j, max);
    AllowanceEarned(max, trace[j].now - trace[i].now);
    hide Earned, Allowance, AcceptedCost, Served;
  }

  /** What the bound allows is really there: some earlier request attains it. */
  lemma {:induction false} SpendingTight(trace: seq<Request>, j: nat, max: real) returns (i: nat)
    requires Trace(trace) && j < |trace| && max > 0.0
    ensures i <= j
    ensures AcceptedCost(trace, i, j, max) + Served(trace, j, max).tokens
            == max + Earned(max, trace[j].now - trace[i].now)
    decreases j
  {
    if j == 0 || Full(trace, j, max).tokens == max {
      if j == 0 { assert Full(trace, 0, max).tokens == max; }
      i := j;
      assert Earned(max, 0.0) == 0.0;
    } else {
      i := SpendingTight(trace, j - 1, max);
      EarnedAdds(max, trace[j - 1].now - trace[i].now, trace[j].now - trace[j - 1].now);
      TokensInRange(trace, j - 1, max);
      hide Earned;
    }
  }

  /** The cost accepted from request `i` to before request `j`. */
  function AcceptedBefore(trace: seq<Request>, i: nat, j: nat, max: real): real
    requires i <= j < |trace|
  {
    if i == j then 0.0 else AcceptedCost(trace, i, j - 1, max)
  }

  /** After a refill the bucket holds the least of what the requests so far allow. */
  lemma FullTight(trace: seq<Request>, j: nat, max: real) returns (i: nat)
    requires Trace(trace) && j < |trace| && max > 0.0
    ensures i <= j
    ensures AcceptedBefore(trace, i, j, max) + Full(trace, j, max).tokens
            == max + Earned(max, trace[j].now - trace[i].now)
    ensures forall k :: 0 <= k <= j ==>
              AcceptedBefore(trace, k, j, max) + Full(trace, j, max).tokens
              <= max + Earned(max, trace[j].now - trace[k].now)
  {
    i := SpendingTight(trace, j, max);
    forall k | 0 <= k <= j
      ensures AcceptedBefore(trace, k, j, max) + Full(trace, j, max).tokens
              <= max + Earned(max, trace[j].now - trace[k].now)
    {
      SpendingBound(trace, k, j, max);
    }
  }

  /** A request is refused exactly when, counted from some request on, it would take the cost past the allowance. */
  lemma RefusedIff(trace: seq<Request>, j: nat, max: real)
    requires Trace(trace) && j < |trace| && max > 0.0
    ensures Full(trace, j, max).tokens < trace[j].cost
            <==> exists i :: 0 <= i <= j
                   && AcceptedBefore(trace, i, j, max) + trace[j].cost > Allowance(max, trace[j].now - trace[i].now)
  {
    var i := FullTight(trace, j, max);
    forall k | 0 <= k <= j
      ensures Allowance(max, trace[j].now - trace[k].now) == max + Earned(max, trace[j].now - trace[k].now)
    {
      AllowanceEarned(max, trace[j].now - trace[k].now);
    }
    hide Earned, AcceptedBefore, Full, Allowance;
  }

  /** What is left is the least of the allowances since each request so far, less what was accepted since. */
  lemma LeftExactly(trace: seq<Request>, j: nat, max: real)
    requires Trace(trace) && j < |trace| && max > 0.0
    ensures var left := Served(trace, j, max).tokens;
            && (forall i :: 0 <= i <= j ==>
                  left <= Allowance(max, trace[j].now - trace[i].now) - AcceptedCost(trace, i, j, max))
            && (exists i :: 0 <= i <= j
                  && left == Allowance(max, trace[j].now - trace[i].now) - AcceptedCost(trace, i, j, max))
  {
    var i := SpendingTight(trace, j, max);
    forall k | 0 <= k <= j
      ensures Allowance(max, trace[j].now - trace[k].now) == max + Earned(max, trace[j].now - trace[k].now)
      ensures AcceptedCost(trace, k, j, max) + Served(trace, j, max).tokens
              <= max + Earned(max, trace[j].now - trace[k].now)
    {
      AllowanceEarned(max, trace[j].now - trace[k].now);
      SpendingBound(trace, k, j, max);
    }
    hide Earned, AcceptedCost, Served, Allowance;
  }

  // ---------- the reported wait ----------

  lemma ScaleUp(a: real, b: real, max: real)
    requires max > 0.0
    ensures a <= b <==> a * max <= b * max
  {
    if a <= b { assert (b - a) * max >= 0.0; } else { assert (a - b) * max > 0.0; }
  }

  lemma WaitArithmetic(tokens: real, cost: real, ms: real, max: real)
    requires max > 0.0
    ensures tokens + Earned(max, ms) >= cost <==> ms >= Wait(cost, tokens, max) * 1000.0
  {
    var share := (cost - tokens) / max;
    assert share * max == cost - tokens;
    ScaleUp(share, ms / MINUTE, max);
  }

  /** A refused cost that fits the bucket is admitted exactly from the reported wait on; a larger one never is. */
  lemma WaitIsExact(b: Bucket, cost: real, now: real, later: real, max: real)
    requires max > 0.0 && now <= later && Refilled(b, now, max).tokens < cost
    ensures var refused := Spent(Refilled(b, now, max), cost);
            Refilled(refused, later, max).tokens >= cost
            <==> cost <= max && later >= now + Wait(cost, refused.tokens, max) * 1000.0
  {
    WaitArithmetic(Refilled(b, now, max).tokens, cost, later - now, max);
    hide Earned, Wait;
  }

  // ---------- the Redis script ----------

  datatype Stored = Stored(bucket: Bucket, expiresAt: real)

  /** The key as the script finds it: absent once its time to live has passed. */
  function Visible(stored: Option<Stored>, now: real): Option<Bucket> {
    if stored.Some? && now <= stored.value.expiresAt then Some(stored.value.bucket) else None
  }

  /** Redis truncates numbers in a reply to integers. */
  function Truncated(x: real): real {
    if x >= 0.0 then x.Floor as real else -((-x).Floor as real)
  }

  /** It drops the fraction, towards zero. */
  lemma TruncatedIs(x: real) returns (i: int)
    ensures Truncated(x) == i as real
    ensures x >= 0.0 ==> x - 1.0 < Truncated(x) <= x
    ensures x <= 0.0 ==> x <= Truncated(x) < x + 1.0
  {
    i := if x >= 0.0 then x.Floor else -((-x).Floor);
  }

  datatype ScriptReply = ScriptReply(allowed: bool, tokens: real)

  class RedisTokenBucket {
    var stored: Option<Stored>

    constructor ()
      ensures stored == None
    {
      stored := None;
    }

    /** The Lua script, for its one key. */
    method Eval(cost: real, now: real, max: real, ttl: real) returns (r: ScriptReply)
      modifies this
      ensures (stored, r) == Script(old(stored), cost, now, max, ttl)
    {
      hide Earned, Truncated;
      var tokens, lastRefill := max, now;
      if stored.Some? && now <= stored.value.expiresAt {
        tokens, lastRefill := stored.value.bucket.tokens, stored.value.bucket.lastRefill;
      }
      var elapsedMs := now - lastRefill;
      var tokensToAdd := Earned(max, elapsedMs);
      tokens := if tokens + tokensToAdd <= max then tokens + tokensToAdd else max;
      lastRefill := now;
      var allowed := tokens >= cost;
      if allowed { tokens := tokens - cost; }
      stored := Some(Stored(Bucket(tokens, lastRefill), now + ttl * 1000.0));
      r := ScriptReply(allowed, Truncated(tokens));
    }
  }

  function Script(stored: Option<Stored>, cost: real, now: real, max: real, ttl: real): (Option<Stored>, ScriptReply) {
    var found := Visible(stored, now);
    var full := Refilled(if found.Some? then found.value else Bucket(max, now), now, max);
    var after := Spent(full, cost);
    (Some(Stored(after, now + ttl * 1000.0)), ScriptReply(full.tokens >= cost, Truncated(after.tokens)))
  }

  /** The stored key after the first `n` requests, starting from nothing. */
  function ScriptAfter(trace: seq<Request>, n: nat, max: real, ttl: real): Option<Stored>
    requires n <= |trace|
  {
    if n == 0 then None
    else Script(ScriptAfter(trace, n - 1, max, ttl), trace[n - 1].cost, trace[n - 1].now, max, ttl).0
  }

  /** The script's verdict on request `n` and the bucket it leaves. */
  function ScriptOn(trace: seq<Request>, n: nat, max: real, ttl: real): (Option<Stored>, ScriptReply)
    requires n < |trace|
  {
    Script(ScriptAfter(trace, n, max, ttl), trace[n].cost, trace[n].now, max, ttl)
  }

  /** A bucket untouched for a minute is as good as new, and so is a full one. */
  lemma AMinuteFills(b: Bucket, now: real, max: real)
    requires max > 0.0 && 0.0 <= b.tokens && (now - b.lastRefill >= MINUTE || (b.tokens == max && now == b.lastRefill))
    ensures Refilled(b, now, max) == Bucket(max, now)
  {
    ScaleUp(1.0, (now - b.lastRefill) / MINUTE, max);
  }

  /** With a time to live of at least a minute, expiry is unobservable: both stores serve every trace alike. */
  lemma {:induction false} ScriptRefines(trace: seq<Request>, n: nat, max: real, ttl: real)
    requires Trace(trace) && n < |trace| && max > 0.0 && ttl >= 60.0
    ensures var (stored, reply) := ScriptOn(trace, n, max, ttl);
            && stored == Some(Stored(Served(trace, n, max), trace[n].now + ttl * 1000.0))
            && reply.allowed == (Full(trace, n, max).tokens >= trace[n].cost)
            && reply.tokens == Truncated(Served(trace, n, max).tokens)
  {
    if n > 0 {
      ScriptRefines(trace, n - 1, max, ttl);
      TokensInRange(trace, n - 1, max);
      if trace[n].now - trace[n - 1].now > ttl * 1000.0 {
        AMinuteFills(Served(trace, n - 1, max), trace[n].now, max);
      }
    }
    AMinuteFills(Bucket(max, trace[n].now), trace[n].now, max);
    hide Refilled, Spent, Truncated;
  }

  /** With a shorter one it is not: a drained bucket comes back full too early. */
  lemma ShortTtlForgets(max: real, ttl: real) returns (trace: seq<Request>)
    requires max > 0.0 && 0.0 <= ttl < 60.0
    ensures Trace(trace) && |trace| == 2
    ensures ScriptOn(trace, 1, max, ttl).1.allowed && Full(trace, 1, max).tokens < trace[1].cost
  {
    var later := (ttl * 1000.0 + MINUTE) / 2.0;
    trace := [Request(max, 0.0), Request(max, later)];
    assert Full(trace, 0, max).tokens == max;
    assert Served(trace, 0, max) == Bucket(0.0, 0.0);
    ScaleUp(1.0, later / MINUTE, max);
    assert Earned(max, later) < max;
    assert ScriptAfter(trace, 0, max, ttl) == None;
    assert ScriptAfter(trace, 1, max, ttl).value.expiresAt == ttl * 1000.0;
  }

  /**
   The caller of the script computes the wait from the truncated token count, so the wait it reports
   is never too short, and is the exact one precisely when the count is whole.
   */
  lemma ScriptWaitIsSafe(tokens: real, cost: real, max: real)
    requires max > 0.0 && tokens >= 0.0
    ensures Wait(cost, Truncated(tokens), max) >= Wait(cost, tokens, max)
    ensures Wait(cost, Truncated(tokens), max) == Wait(cost, tokens, max) <==> Truncated(tokens) == tokens
  {
    var a, b := (cost - Truncated(tokens)) / max, (cost - tokens) / max;
    assert a * max == cost - Truncated(tokens) && b * max == cost - tokens;
    ScaleUp(b, a, max);
    ScaleUp(a, b, max);
  }
}
