/**
 The sliding-window rate limiter: one meaning for a request, the in-memory store and the Redis
 script both proved to have it, and what it guarantees over whole histories.
 */
module SlidingWindow {
  import opened Ordering

  datatype Bucket = Bucket(key: string, limit: int)

  /** `Infinity` and Lua's `math.huge` are the same starting value for a minimum. */
  datatype Count = Finite(n: int) | Infinite

  datatype Reply = Reply(allowed: bool, limit: int, remaining: Count, resetAfterMs: int)

  /** Accepted instants per key, oldest first; a missing key has none. */
  type Log = map<string, seq<int>>

  function Stamps(log: Log, key: string): seq<int> {
    if key in log then log[key] else []
  }

  function Live(stamps: seq<int>, cutoff: int): seq<int> {
    if stamps == [] then []
    else (if stamps[0] > cutoff then [stamps[0]] else []) + Live(stamps[1..], cutoff)
  }

  function Max(a: int, b: int): int { if a >= b then a else b }

  function Reset(stamps: seq<int>, window: int, now: int): int {
    if stamps == [] then window else Max(0, window - (now - stamps[0]))
  }

  predicate Fewer(a: int, b: Count) { b.Infinite? || a < b.n }

  // ---------- the meaning of one request ----------

  function Pruned(log: Log, buckets: seq<Bucket>, cutoff: int): Log {
    if buckets == [] then log
    else
      var n := |buckets| - 1;
      var before, key := Pruned(log, buckets[..n], cutoff), buckets[n].key;
      before[key := Live(Stamps(before, key), cutoff)]
  }

  function Charged(log: Log, buckets: seq<Bucket>, now: int): Log {
    if buckets == [] then log
    else
      var n := |buckets| - 1;
      var before, key := Charged(log, buckets[..n], now), buckets[n].key;
      before[key := Stamps(before, key) + [now]]
  }

  datatype Scan = Scan(blocked: bool, retryAfter: int, limit: int, remaining: Count, reset: int)

  /** Which bucket is tightest, whether any is full, and the longest wait among the full ones. */
  function Scanned(log: Log, buckets: seq<Bucket>, window: int, now: int): Scan {
    if buckets == [] then Scan(false, 0, 0, Infinite, window)
    else
      var n := |buckets| - 1;
      var before, stamps, limit :=
          Scanned(log, buckets[..n], window, now), Stamps(log, buckets[n].key), buckets[n].limit;
      var full, left, reset := |stamps| >= limit, Max(0, limit - |stamps|), Reset(stamps, window, now);
      Scan(before.blocked || full,
           if full then Max(before.retryAfter, reset) else before.retryAfter,
           if Fewer(left, before.remaining) then limit else before.limit,
           if Fewer(left, before.remaining) then Finite(left) else before.remaining,
           if Fewer(left, before.remaining) then reset else before.reset)
  }

  function After(log: Log, buckets: seq<Bucket>, window: int, now: int): Log {
    var pruned := Pruned(log, buckets, now - window);
    if Scanned(pruned, buckets, window, now).blocked then pruned else Charged(pruned, buckets, now)
  }

  function Answer(log: Log, buckets: seq<Bucket>, window: int, now: int): Reply {
    var pruned := Pruned(log, buckets, now - window);
    var scan := Scanned(pruned, buckets, window, now);
    if scan.blocked then Reply(false, scan.limit, scan.remaining, scan.retryAfter)
    else
      var charged := Scanned(Charged(pruned, buckets, now), buckets, window, now);
      Reply(true, charged.limit, charged.remaining, charged.reset)
  }

  /** The in-memory reply: with no bucket at all the minimum stays infinite and 0 is reported. */
  function MemoryAnswer(log: Log, buckets: seq<Bucket>, window: int, now: int): Reply {
    var r := Answer(log, buckets, window, now);
    r.(remaining := if r.remaining.Finite? then r.remaining else Finite(0))
  }

  ghost predicate DistinctKeys(buckets: seq<Bucket>) {
    forall i, j :: 0 <= i < j < |buckets| ==> buckets[i].key != buckets[j].key
  }

  // ---------- the in-memory store ----------

  class MemoryStore {
    var buckets: map<string, seq<int>>

    constructor ()
      ensures buckets == map[]
    {
      buckets := map[];
    }

    /** `Array.prototype.filter` on one bucket. */
    static method Filter(stamps: seq<int>, cutoff: int) returns (live: seq<int>)
      ensures live == Live(stamps, cutoff)
    {
      live := [];
      assert stamps[0..] == stamps;
      for i := 0 to |stamps|
        invariant live + Live(stamps[i..], cutoff) == Live(stamps, cutoff)
      {
        assert stamps[i..][1..] == stamps[i + 1..];
        if stamps[i] > cutoff { live := live + [stamps[i]]; }
      }
    }

    method Examine(requested: seq<Bucket>, window: int, now: int) returns (scan: Scan)
      ensures scan == Scanned(buckets, requested, window, now)
    {
      scan := Scan(false, 0, 0, Infinite, window);
      for i := 0 to |requested|
        invariant scan == Scanned(buckets, requested[..i], window, now)
      {
        assert requested[..i + 1][..i] == requested[..i];
        var item := requested[i];
        var stamps := if item.key in buckets then buckets[item.key] else [];
        var remaining := Max(0, item.limit - |stamps|);
        var reset := if |stamps| > 0 then Max(0, window - (now - stamps[0])) else window;
        if |stamps| >= item.limit {
          scan := scan.(blocked := true, retryAfter := Max(scan.retryAfter, reset));
        }
        if Fewer(remaining, scan.remaining) {
          scan := scan.(remaining := Finite(remaining), limit := item.limit, reset := reset);
        }
      }
      assert requested[..|requested|] == requested;
    }

    method Prune(requested: seq<Bucket>, cutoff: int)
      modifies this
      ensures buckets == Pruned(old(buckets), requested, cutoff)
    {
      for i := 0 to |requested|
        invariant buckets == Pruned(old(buckets), requested[..i], cutoff)
      {
        assert requested[..i + 1][..i] == requested[..i];
        var key := requested[i].key;
        if key !in buckets { buckets := buckets[key := []]; }
        var live := Filter(buckets[key], cutoff);
        buckets := buckets[key := live];
      }
      assert requested[..|requested|] == requested;
    }

    method Push(requested: seq<Bucket>, now: int)
      modifies this
      ensures buckets == Charged(old(buckets), requested, now)
    {
      for i := 0 to |requested|
        invariant buckets == Charged(old(buckets), requested[..i], now)
      {
        assert requested[..i + 1][..i] == requested[..i];
        var key := requested[i].key;
        var stamps := if key in buckets then buckets[key] else [];
        buckets := buckets[key := stamps + [now]];
      }
      assert requested[..|requested|] == requested;
    }

    method Consume(requested: seq<Bucket>, window: int, now: int) returns (r: Reply)
      modifies this
      ensures buckets == After(old(buckets), requested, window, now)
      ensures r == MemoryAnswer(old(buckets), requested, window, now)
    {
      hide Pruned, Charged, Scanned;
      Prune(requested, now - window);
      var scan := Examine(requested, window, now);
      var allowed := !scan.blocked;
      if allowed {
        Push(requested, now);
        scan := Examine(requested, window, now);
      } else {
        scan := scan.(reset := scan.retryAfter);
      }
      r := Reply(allowed, scan.limit, if scan.remaining.Finite? then scan.remaining else Finite(0), scan.reset);
    }
  }

  lemma ScanFinite(log: Log, buckets: seq<Bucket>, window: int, now: int)
    ensures Scanned(log, buckets, window, now).remaining.Infinite? <==> buckets == []
  {}

  // ---------- the Redis script ----------

  datatype Member = Member(uuid: string, index: nat)
  datatype Entry = Entry(score: int, member: Member)

  function Scores(z: seq<Entry>): (scores: seq<int>)
    ensures |scores| == |z|
    ensures forall i :: 0 <= i < |z| ==> scores[i] == z[i].score
  {
    seq(|z|, i requires 0 <= i < |z| => z[i].score)
  }

  function Codes(s: string): seq<int> {
    seq(|s|, i requires 0 <= i < |s| => s[i] as int)
  }

  /** Order inside a sorted set: by score, then by member. */
  predicate Before(a: Entry, b: Entry) {
    a.score < b.score
    || (a.score == b.score && ((a.member.uuid != b.member.uuid && SeqLe(Codes(a.member.uuid), Codes(b.member.uuid)))
                               || (a.member.uuid == b.member.uuid && a.member.index < b.member.index)))
  }

  function InsertEntry(z: seq<Entry>, e: Entry): seq<Entry> {
    if z == [] || Before(e, z[0]) then [e] + z else [z[0]] + InsertEntry(z[1..], e)
  }

  function WithoutMember(z: seq<Entry>, m: Member): seq<Entry> {
    if z == [] then []
    else (if z[0].member == m then [] else [z[0]]) + WithoutMember(z[1..], m)
  }

  /** ZADD replaces the score of a member that is already there. */
  function ZAdd(z: seq<Entry>, score: int, member: Member): seq<Entry> {
    InsertEntry(WithoutMember(z, member), Entry(score, member))
  }

  /** ZREMRANGEBYSCORE key -inf cutoff. */
  function ZRemUpTo(z: seq<Entry>, cutoff: int): seq<Entry> {
    if z == [] then []
    else (if z[0].score > cutoff then [z[0]] else []) + ZRemUpTo(z[1..], cutoff)
  }

  lemma {:induction false} ZRemUpToScores(z: seq<Entry>, cutoff: int)
    ensures Scores(ZRemUpTo(z, cutoff)) == Live(Scores(z), cutoff)
    ensures forall e :: e in ZRemUpTo(z, cutoff) ==> e in z
  {
    if z != [] {
      ZRemUpToScores(z[1..], cutoff);
      assert Scores(z)[1..] == Scores(z[1..]);
    }
  }

  ghost predicate Ordered(stamps: seq<int>) {
    forall i, j :: 0 <= i <= j < |stamps| ==> stamps[i] <= stamps[j]
  }

  ghost predicate AllAtMost(stamps: seq<int>, bound: int) {
    forall i :: 0 <= i < |stamps| ==> stamps[i] <= bound
  }

  lemma {:induction false} InsertLast(z: seq<Entry>, e: Entry)
    requires Ordered(Scores(z)) && AllAtMost(Scores(z), e.score)
    ensures Scores(InsertEntry(z, e)) == Scores(z) + [e.score]
    ensures forall f :: f in InsertEntry(z, e) ==> f == e || f in z
  {
    var scores := Scores(z);
    if z != [] && !Before(e, z[0]) {
      assert scores[1..] == Scores(z[1..]);
      InsertLast(z[1..], e);
    } else if z != [] {
      // e sorts before the whole set, so every score in it equals e's
      forall i | 0 <= i < |z| ensures z[i].score == e.score { assert scores[0] <= scores[i] <= e.score; }
      assert Scores([e] + z) == scores + [e.score];
    }
  }

  lemma {:induction false} WithoutAbsent(z: seq<Entry>, m: Member)
    requires forall e :: e in z ==> e.member != m
    ensures WithoutMember(z, m) == z
  {
    if z != [] { WithoutAbsent(z[1..], m); }
  }

  lemma {:induction false} LiveOrdered(stamps: seq<int>, cutoff: int)
    requires Ordered(stamps)
    ensures Ordered(Live(stamps, cutoff))
    ensures stamps != [] && stamps[0] > cutoff ==> Live(stamps, cutoff) == stamps
    ensures stamps != [] && Live(stamps, cutoff) != [] ==> stamps[0] <= Live(stamps, cutoff)[0]
  {
    if stamps != [] {
      var rest := stamps[1..];
      LiveOrdered(rest, cutoff);
      if rest != [] { assert stamps[0] <= rest[0] == stamps[1]; }
    }
  }

  lemma {:induction false} LiveAtMost(stamps: seq<int>, cutoff: int, bound: int)
    requires AllAtMost(stamps, bound)
    ensures AllAtMost(Live(stamps, cutoff), bound)
    ensures bound <= cutoff ==> Live(stamps, cutoff) == []
  {
    if stamps != [] { LiveAtMost(stamps[1..], cutoff, bound); }
  }

  /** One key in Redis: its sorted set and the instant it expires; an expired key reads as absent. */
  datatype ZKey = ZKey(entries: seq<Entry>, expiresAt: int)
  type Redis = map<string, ZKey>

  function Entries(redis: Redis, key: string): seq<Entry> {
    if key in redis then redis[key].entries else []
  }

  /** A key past its expiry is not there; removing the last entry of a set removes its key. */
  function CleanKey(redis: Redis, key: string, cutoff: int, now: int): Redis {
    if key !in redis then redis
    else if redis[key].expiresAt < now then redis - {key}
    else
      var left := ZRemUpTo(redis[key].entries, cutoff);
      if left == [] then redis - {key} else redis[key := redis[key].(entries := left)]
  }

  /** ZADD, then PEXPIRE, which deletes the key at once unless the window is positive. */
  function ChargeKey(redis: Redis, key: string, window: int, now: int, member: Member): Redis {
    if window <= 0 then redis - {key}
    else redis[key := ZKey(ZAdd(Entries(redis, key), now, member), now + window)]
  }

  function RedisPruned(redis: Redis, buckets: seq<Bucket>, cutoff: int, now: int): Redis {
    if buckets == [] then redis
    else CleanKey(RedisPruned(redis, buckets[..|buckets| - 1], cutoff, now), buckets[|buckets| - 1].key, cutoff, now)
  }

  function RedisCharged(redis: Redis, buckets: seq<Bucket>, window: int, now: int, uuid: string): Redis {
    if buckets == [] then redis
    else
      var n := |buckets| - 1;
      ChargeKey(RedisCharged(redis, buckets[..n], window, now, uuid), buckets[n].key, window, now, Member(uuid, n + 1))
  }

  /** The instants that the script can see. */
  function ZLog(redis: Redis): Log {
    map key | key in redis :: Scores(redis[key].entries)
  }

  function ScriptAfter(redis: Redis, buckets: seq<Bucket>, window: int, now: int, uuid: string): Redis {
    var pruned := RedisPruned(redis, buckets, now - window, now);
    if Scanned(ZLog(pruned), buckets, window, now).blocked then pruned
    else RedisCharged(pruned, buckets, window, now, uuid)
  }

  function ScriptAnswer(redis: Redis, buckets: seq<Bucket>, window: int, now: int, uuid: string): Reply {
    var pruned := RedisPruned(redis, buckets, now - window, now);
    var scan := Scanned(ZLog(pruned), buckets, window, now);
    if scan.blocked then Reply(false, scan.limit, scan.remaining, scan.retryAfter)
    else
      var charged := Scanned(ZLog(RedisCharged(pruned, buckets, window, now, uuid)), buckets, window, now);
      Reply(true, charged.limit, charged.remaining, charged.reset)
  }

  class RedisStore {
    var keys: Redis

    constructor ()
      ensures keys == map[]
    {
      keys := map[];
    }

    /** ZCARD and the first element of ZRANGE for each key, folded as the script does. */
    method Examine(requested: seq<Bucket>, window: int, now: int) returns (scan: Scan)
      ensures scan == Scanned(ZLog(keys), requested, window, now)
    {
      scan := Scan(false, 0, 0, Infinite, window);
      for i := 0 to |requested|
        invariant scan == Scanned(ZLog(keys), requested[..i], window, now)
      {
        assert requested[..i + 1][..i] == requested[..i];
        var item := requested[i];
        var entries := Entries(keys, item.key);
        assert Scores(entries) == Stamps(ZLog(keys), item.key);
        var remaining := Max(0, item.limit - |entries|);
        var reset := window;
        if |entries| > 0 { reset := Max(0, window - (now - entries[0].score)); }
        if |entries| >= item.limit {
          scan := scan.(blocked := true, retryAfter := Max(scan.retryAfter, reset));
        }
        if Fewer(remaining, scan.remaining) {
          scan := scan.(remaining := Finite(remaining), limit := item.limit, reset := reset);
        }
      }
      assert requested[..|requested|] == requested;
    }

    /** The script, from the clean-up to the reply. */
    method Eval(requested: seq<Bucket>, window: int, uuid: string, now: int) returns (r: Reply)
      modifies this
      ensures keys == ScriptAfter(old(keys), requested, window, now, uuid)
      ensures r == ScriptAnswer(old(keys), requested, window, now, uuid)
    {
      for i := 0 to |requested|
        invariant keys == RedisPruned(old(keys), requested[..i], now - window, now)
      {
        assert requested[..i + 1][..i] == requested[..i];
        keys := CleanKey(keys, requested[i].key, now - window, now);
      }
      assert requested[..|requested|] == requested;
      var scan := Examine(requested, window, now);
      if scan.blocked {
        return Reply(false, scan.limit, scan.remaining, scan.retryAfter);
      }
      ghost var pruned := keys;
      for i := 0 to |requested|
        invariant keys == RedisCharged(pruned, requested[..i], window, now, uuid)
      {
        assert requested[..i + 1][..i] == requested[..i];
        keys := ChargeKey(keys, requested[i].key, window, now, Member(uuid, i + 1));
      }
      assert requested[..|requested|] == requested;
      scan := Examine(requested, window, now);
      r := Reply(true, scan.limit, scan.remaining, scan.reset);
    }
  }

  // ---------- the script refines the in-memory store ----------

  /** How a key stands to the log at `clock`: the same instants, or gone with nothing left alive. */
  ghost predicate KeyMatches(redis: Redis, log: Log, key: string, window: int, clock: int) {
    var stamps := Stamps(log, key);
    && Ordered(stamps) && AllAtMost(stamps, clock)
    && if key in redis then Scores(redis[key].entries) == stamps && AllAtMost(stamps, redis[key].expiresAt - window)
       else AllAtMost(stamps, clock - window)
  }

  ghost predicate Matches(redis: Redis, log: Log, windowOf: string -> int, clock: int) {
    forall key :: KeyMatches(redis, log, key, windowOf(key), clock)
  }

  ghost predicate KeyMatchesExactly(redis: Redis, log: Log, key: string, window: int, now: int) {
    KeyMatches(redis, log, key, window, now) && Scores(Entries(redis, key)) == Stamps(log, key)
  }

  /** Half way through the script: the keys in `done` have been brought to `now` and agree exactly. */
  ghost predicate MidMatches(redis: Redis, log: Log, done: set<string>, windowOf: string -> int, clock: int, now: int) {
    && (forall key :: key in done ==> KeyMatchesExactly(redis, log, key, windowOf(key), now))
    && (forall key :: key !in done ==> KeyMatches(redis, log, key, windowOf(key), clock))
  }

  ghost predicate WindowIs(buckets: seq<Bucket>, windowOf: string -> int, window: int) {
    forall i :: 0 <= i < |buckets| ==> windowOf(buckets[i].key) == window
  }

  ghost function KeysOf(buckets: seq<Bucket>): set<string> {
    set i | 0 <= i < |buckets| :: buckets[i].key
  }

  lemma KeysOfSnoc(buckets: seq<Bucket>)
    requires buckets != []
    ensures var n := |buckets| - 1;
            KeysOf(buckets) == KeysOf(buckets[..n]) + {buckets[n].key}
    ensures DistinctKeys(buckets) ==> DistinctKeys(buckets[..|buckets| - 1])
                                      && buckets[|buckets| - 1].key !in KeysOf(buckets[..|buckets| - 1])
  {
    var n := |buckets| - 1;
    forall k | k in KeysOf(buckets) ensures k in KeysOf(buckets[..n]) + {buckets[n].key} {
      var i :| 0 <= i < |buckets| && buckets[i].key == k;
      if i < n { assert buckets[..n][i].key == k; }
    }
    forall k | k in KeysOf(buckets[..n]) ensures k in KeysOf(buckets) {
      var i :| 0 <= i < n && buckets[..n][i].key == k;
      assert buckets[i].key == k;
    }
  }

  lemma CleanKeyMatches(redis: Redis, log: Log, key: string, window: int, clock: int, now: int)
    requires KeyMatches(redis, log, key, window, clock) && clock <= now
    ensures KeyMatchesExactly(CleanKey(redis, key, now - window, now), log[key := Live(Stamps(log, key), now - window)],
                              key, window, now)
  {
    hide Ordered, AllAtMost, Live, Scores;
    var stamps, cutoff := Stamps(log, key), now - window;
    var redis' := CleanKey(redis, key, cutoff, now);
    LiveOrdered(stamps, cutoff);
    LiveAtMost(stamps, cutoff, clock);
    RaiseBound(Live(stamps, cutoff), clock, now);
    NoScores();
    if key in redis {
      LiveAtMost(stamps, cutoff, redis[key].expiresAt - window);
      ZRemUpToScores(redis[key].entries, cutoff);
    } else {
      LiveAtMost(stamps, cutoff, clock - window);
    }
    if key !in redis' {
      assert Live(stamps, cutoff) == [];
      NothingAbove(cutoff);
    }
  }

  lemma NoScores()
    ensures Scores([]) == []
    ensures forall z :: Scores(z) == [] ==> z == []
  {}

  lemma NothingAbove(bound: int)
    ensures AllAtMost([], bound)
  {}

  lemma RaiseBound(stamps: seq<int>, low: int, high: int)
    requires AllAtMost(stamps, low) && low <= high
    ensures AllAtMost(stamps, high)
  {}

  lemma {:induction false} PrunedMatches(redis: Redis, log: Log, buckets: seq<Bucket>, windowOf: string -> int,
                                         window: int, clock: int, now: int)
    requires Matches(redis, log, windowOf, clock) && clock <= now && DistinctKeys(buckets)
    requires WindowIs(buckets, windowOf, window)
    ensures MidMatches(RedisPruned(redis, buckets, now - window, now), Pruned(log, buckets, now - window),
                       KeysOf(buckets), windowOf, clock, now)
  {
    hide KeyMatches, KeyMatchesExactly, Scores, Stamps, Live;
    if buckets != [] {
      var n := |buckets| - 1;
      var key, cutoff := buckets[n].key, now - window;
      KeysOfSnoc(buckets);
      PrunedMatches(redis, log, buckets[..n], windowOf, window, clock, now);
      var redis1, log1 := RedisPruned(redis, buckets[..n], cutoff, now), Pruned(log, buckets[..n], cutoff);
      assert windowOf(key) == window && KeyMatches(redis1, log1, key, windowOf(key), clock);
      CleanKeyMatches(redis1, log1, key, window, clock, now);
      var redis2, log2 := CleanKey(redis1, key, cutoff, now), log1[key := Live(Stamps(log1, key), cutoff)];
      SameElsewhere(log1, key, log2[key]);
      OneKeyChanged(redis1, log1, redis2, log2, key, KeysOf(buckets[..n]), windowOf, clock, now);
    }
  }

  /** A step that touches one key only leaves the others as they were. */
  lemma OneKeyChanged(redis: Redis, log: Log, redis': Redis, log': Log, key: string, done: set<string>,
                      windowOf: string -> int, clock: int, now: int)
    requires MidMatches(redis, log, done, windowOf, clock, now)
    requires forall k :: k != key ==> (k in redis' <==> k in redis) && (k in redis ==> redis'[k] == redis[k])
                                      && Stamps(log', k) == Stamps(log, k)
    requires KeyMatchesExactly(redis', log', key, windowOf(key), now)
    ensures MidMatches(redis', log', done + {key}, windowOf, clock, now)
  {
    hide Ordered, AllAtMost, Scores, Stamps;
    forall k | k in done + {key} ensures KeyMatchesExactly(redis', log', k, windowOf(k), now) {
      if k != key { assert KeyMatchesExactly(redis, log, k, windowOf(k), now); }
    }
    forall k | k !in done + {key} ensures KeyMatches(redis', log', k, windowOf(k), clock) {
      assert KeyMatches(redis, log, k, windowOf(k), clock);
    }
  }

  lemma ChargeKeyMatches(redis: Redis, log: Log, key: string, window: int, now: int, member: Member)
    requires window >= 1 && KeyMatchesExactly(redis, log, key, window, now)
    requires forall e :: e in Entries(redis, key) ==> e.member != member
    ensures KeyMatchesExactly(ChargeKey(redis, key, window, now, member), log[key := Stamps(log, key) + [now]], key,
                              window, now)
  {
    var entries := Entries(redis, key);
    WithoutAbsent(entries, member);
    InsertLast(entries, Entry(now, member));
  }

  ghost predicate Fresh(redis: Redis, key: string, uuid: string) {
    forall e :: e in Entries(redis, key) ==> e.member.uuid != uuid
  }

  ghost predicate AllFresh(redis: Redis, uuid: string) {
    forall key :: Fresh(redis, key, uuid)
  }

  lemma {:induction false} ChargedMatches(redis: Redis, log: Log, buckets: seq<Bucket>, all: set<string>,
                                          windowOf: string -> int,
                                          window: int, clock: int, now: int, uuid: string)
    requires MidMatches(redis, log, all, windowOf, clock, now) && DistinctKeys(buckets) && KeysOf(buckets) <= all
    requires window >= 1 && WindowIs(buckets, windowOf, window) && AllFresh(redis, uuid)
    ensures MidMatches(RedisCharged(redis, buckets, window, now, uuid), Charged(log, buckets, now), all, windowOf,
                       clock, now)
    ensures forall k :: k !in KeysOf(buckets) ==>
            Entries(RedisCharged(redis, buckets, window, now, uuid), k) == Entries(redis, k)
  {
    hide KeyMatches, KeyMatchesExactly, Scores, Stamps, ZAdd;
    if buckets != [] {
      var n := |buckets| - 1;
      var key := buckets[n].key;
      KeysOfSnoc(buckets);
      ChargedMatches(redis, log, buckets[..n], all, windowOf, window, clock, now, uuid);
      var redis1, log1 := RedisCharged(redis, buckets[..n], window, now, uuid), Charged(log, buckets[..n], now);
      assert Fresh(redis, key, uuid) && Entries(redis1, key) == Entries(redis, key);
      assert key in all && windowOf(key) == window;
      ChargeKeyMatches(redis1, log1, key, window, now, Member(uuid, n + 1));
      var redis2, log2 :=
          ChargeKey(redis1, key, window, now, Member(uuid, n + 1)), log1[key := Stamps(log1, key) + [now]];
      SameElsewhere(log1, key, log2[key]);
      OneKeyChanged(redis1, log1, redis2, log2, key, all, windowOf, clock, now);
      assert all + {key} == all;
    }
  }

  lemma SameElsewhere(log: Log, key: string, stamps: seq<int>)
    ensures forall k :: k != key ==> Stamps(log[key := stamps], k) == Stamps(log, k)
  {}

  lemma {:induction false} ScannedAgree(a: Log, b: Log, buckets: seq<Bucket>, window: int, now: int)
    requires forall i :: 0 <= i < |buckets| ==> Stamps(a, buckets[i].key) == Stamps(b, buckets[i].key)
    ensures Scanned(a, buckets, window, now) == Scanned(b, buckets, window, now)
  {
    if buckets != [] { ScannedAgree(a, b, buckets[..|buckets| - 1], window, now); }
  }

  lemma MidScansAgree(redis: Redis, log: Log, buckets: seq<Bucket>, windowOf: string -> int, window: int, clock: int,
                      now: int)
    requires MidMatches(redis, log, KeysOf(buckets), windowOf, clock, now)
    ensures Scanned(ZLog(redis), buckets, window, now) == Scanned(log, buckets, window, now)
  {
    forall i | 0 <= i < |buckets| ensures Stamps(ZLog(redis), buckets[i].key) == Stamps(log, buckets[i].key) {
      var key := buckets[i].key;
      assert key in KeysOf(buckets) && KeyMatchesExactly(redis, log, key, windowOf(key), now);
    }
    ScannedAgree(ZLog(redis), log, buckets, window, now);
  }

  lemma MidToMatches(redis: Redis, log: Log, done: set<string>, windowOf: string -> int, clock: int, now: int)
    requires MidMatches(redis, log, done, windowOf, clock, now) && clock <= now
    ensures Matches(redis, log, windowOf, now)
  {
    forall key ensures KeyMatches(redis, log, key, windowOf(key), now) {
      if key in done { assert KeyMatchesExactly(redis, log, key, windowOf(key), now); }
    }
  }

  // ---------- windows that are not positive ----------

  /** Such a window leaves nothing alive, and `PEXPIRE` takes away what has just been charged. */
  lemma {:induction false} ChargedGone(redis: Redis, buckets: seq<Bucket>, window: int, now: int, uuid: string)
    requires window <= 0
    ensures var after := RedisCharged(redis, buckets, window, now, uuid);
            && (forall k :: k in KeysOf(buckets) ==> k !in after)
            && (forall k :: k !in KeysOf(buckets) ==>
                  (k in after <==> k in redis) && (k in redis ==> after[k] == redis[k]))
  {
    if buckets != [] {
      KeysOfSnoc(buckets);
      ChargedGone(redis, buckets[..|buckets| - 1], window, now, uuid);
    }
  }

  lemma NothingAlive(redis: Redis, log: Log, buckets: seq<Bucket>, windowOf: string -> int, window: int, clock: int,
                     now: int, key: string)
    requires Matches(redis, log, windowOf, clock) && clock <= now && DistinctKeys(buckets) && window <= 0
    requires key in KeysOf(buckets)
    ensures Stamps(Pruned(log, buckets, now - window), key) == []
    ensures Stamps(Charged(Pruned(log, buckets, now - window), buckets, now), key) == [now]
  {
    assert KeyMatches(redis, log, key, windowOf(key), clock);
    LiveAtMost(Stamps(log, key), now - window, clock);
    PrunedStamps(log, buckets, now - window, key);
    ChargedStamps(Pruned(log, buckets, now - window), buckets, now, key);
  }

  /** One instant more in every bucket leaves one place less in the tightest. */
  lemma {:induction false} OneLessLeft(a: Log, b: Log, buckets: seq<Bucket>, window: int, now: int)
    requires forall i :: 0 <= i < |buckets| ==>
               Stamps(a, buckets[i].key) == [] && Stamps(b, buckets[i].key) == [now] && buckets[i].limit >= 1
    ensures var x, y := Scanned(a, buckets, window, now).remaining, Scanned(b, buckets, window, now).remaining;
            if buckets == [] then x == y == Infinite else x.Finite? && y.Finite? && x.n == y.n + 1
  {
    if buckets != [] {
      var n := |buckets| - 1;
      assert forall i :: 0 <= i < n ==> buckets[..n][i] == buckets[i];
      OneLessLeft(a, b, buckets[..n], window, now);
    }
  }

  ghost predicate SomeLimitBelowOne(buckets: seq<Bucket>) {
    exists i :: 0 <= i < |buckets| && buckets[i].limit <= 0
  }

  /** With nothing alive only a limit below one can refuse a request. */
  lemma BlockedByLimit(log: Log, buckets: seq<Bucket>, window: int, now: int)
    requires forall i :: 0 <= i < |buckets| ==> Stamps(log, buckets[i].key) == []
    ensures Scanned(log, buckets, window, now).blocked <==> SomeLimitBelowOne(buckets)
  {
    ScannedMeaning(log, buckets, window, now);
    hide Scanned;
    if i :| 0 <= i < |buckets| && buckets[i].limit <= 0 { assert Full(log, buckets[i]); }
    if i :| 0 <= i < |buckets| && Full(log, buckets[i]) { assert buckets[i].limit <= 0; }
  }

  lemma GoneMatches(redis: Redis, log: Log, redis': Redis, log': Log, done: set<string>, windowOf: string -> int,
                    clock: int, now: int)
    requires Matches(redis, log, windowOf, clock) && clock <= now
    requires forall k :: k in done ==> windowOf(k) <= 0 && k !in redis' && Stamps(log', k) == [now]
    requires forall k :: k !in done ==> (k in redis' <==> k in redis) && (k in redis ==> redis'[k] == redis[k])
                                        && Stamps(log', k) == Stamps(log, k)
    ensures Matches(redis', log', windowOf, now)
  {
    hide Ordered, AllAtMost, Scores, Stamps;
    forall k ensures KeyMatches(redis', log', k, windowOf(k), now) {
      if k in done { JustNow(now, windowOf(k)); } else { KeyLater(redis, log, k, windowOf(k), clock, now); }
    }
  }

  lemma JustNow(now: int, window: int)
    ensures Ordered([now]) && AllAtMost([now], now)
    ensures window <= 0 ==> AllAtMost([now], now - window)
  {}

  lemma KeyLater(redis: Redis, log: Log, key: string, window: int, clock: int, now: int)
    requires KeyMatches(redis, log, key, window, clock) && clock <= now
    ensures KeyMatches(redis, log, key, window, now)
  {}

  lemma PrunedElsewhere(redis: Redis, buckets: seq<Bucket>, cutoff: int, now: int, k: string)
    requires k !in KeysOf(buckets)
    ensures var after := RedisPruned(redis, buckets, cutoff, now);
            (k in after <==> k in redis) && (k in redis ==> after[k] == redis[k])
  {
    if buckets != [] {
      KeysOfSnoc(buckets);
      PrunedElsewhere(redis, buckets[..|buckets| - 1], cutoff, now, k);
    }
  }

  /** An admitted request under a window that is not positive: the stores match after it, but count differently. */
  lemma ShortWindowCharged(redis: Redis, log: Log, buckets: seq<Bucket>, windowOf: string -> int, window: int,
                           clock: int, now: int, uuid: string)
    requires Matches(redis, log, windowOf, clock) && clock <= now && DistinctKeys(buckets)
    requires WindowIs(buckets, windowOf, window) && window <= 0 && !SomeLimitBelowOne(buckets)
    ensures var redis1, log1 := RedisPruned(redis, buckets, now - window, now), Pruned(log, buckets, now - window);
            var redis2, log2 := RedisCharged(redis1, buckets, window, now, uuid), Charged(log1, buckets, now);
            && Matches(redis2, log2, windowOf, now)
            && (Scanned(ZLog(redis2), buckets, window, now).remaining == Scanned(log2, buckets, window, now).remaining
                <==> buckets == [])
  {
    hide Matches, Scanned, RedisPruned, RedisCharged, Pruned, Charged, SomeLimitBelowOne;
    var redis1, log1 := RedisPruned(redis, buckets, now - window, now), Pruned(log, buckets, now - window);
    var redis2, log2 := RedisCharged(redis1, buckets, window, now, uuid), Charged(log1, buckets, now);
    ChargedGone(redis1, buckets, window, now, uuid);
    forall k | k in KeysOf(buckets) ensures windowOf(k) <= 0 && k !in redis2 && Stamps(log2, k) == [now] {
      NothingAlive(redis, log, buckets, windowOf, window, clock, now, k);
    }
    forall k | k !in KeysOf(buckets)
      ensures (k in redis2 <==> k in redis) && (k in redis ==> redis2[k] == redis[k])
      ensures Stamps(log2, k) == Stamps(log, k)
    {
      PrunedElsewhere(redis, buckets, now - window, now, k);
      PrunedStamps(log, buckets, now - window, k);
      ChargedStamps(log1, buckets, now, k);
    }
    GoneMatches(redis, log, redis2, log2, KeysOf(buckets), windowOf, clock, now);
    LimitsAtLeastOne(buckets);
    forall i | 0 <= i < |buckets|
      ensures Stamps(ZLog(redis2), buckets[i].key) == [] && Stamps(log2, buckets[i].key) == [now]
    {
      assert buckets[i].key in KeysOf(buckets);
    }
    OneLessLeft(ZLog(redis2), log2, buckets, window, now);
  }

  lemma LimitsAtLeastOne(buckets: seq<Bucket>)
    requires !SomeLimitBelowOne(buckets)
    ensures forall i :: 0 <= i < |buckets| ==> buckets[i].limit >= 1
  {
    forall i | 0 <= i < |buckets| ensures buckets[i].limit >= 1 {}
  }

  /** When the script counts like the in-memory store: not if it has just deleted what it charged. */
  ghost predicate CountsAlike(buckets: seq<Bucket>, window: int) {
    buckets == [] || window >= 1 || SomeLimitBelowOne(buckets)
  }

  /**
   One request: the stores still match after it, whatever has expired meanwhile, and they give the same reply
   iff the window is positive, or nothing is charged.
   */
  lemma ScriptRefines(redis: Redis, log: Log, buckets: seq<Bucket>, windowOf: string -> int, window: int,
                      clock: int, now: int, uuid: string)
    requires Matches(redis, log, windowOf, clock) && clock <= now && DistinctKeys(buckets)
    requires WindowIs(buckets, windowOf, window)
    requires AllFresh(redis, uuid)
    ensures ScriptAnswer(redis, buckets, window, now, uuid) == Answer(log, buckets, window, now)
            <==> CountsAlike(buckets, window)
    ensures Matches(ScriptAfter(redis, buckets, window, now, uuid), After(log, buckets, window, now), windowOf, now)
  {
    hide Matches, MidMatches, Scanned, SomeLimitBelowOne;
    PrunedMatches(redis, log, buckets, windowOf, window, clock, now);
    var redis1, log1 := RedisPruned(redis, buckets, now - window, now), Pruned(log, buckets, now - window);
    MidScansAgree(redis1, log1, buckets, windowOf, window, clock, now);
    var blocked := Scanned(log1, buckets, window, now).blocked;
    if window <= 0 {
      forall i | 0 <= i < |buckets| ensures Stamps(log1, buckets[i].key) == [] {
        assert buckets[i].key in KeysOf(buckets);
        NothingAlive(redis, log, buckets, windowOf, window, clock, now, buckets[i].key);
      }
      BlockedByLimit(log1, buckets, window, now);
    }
    if blocked {
      MidToMatches(redis1, log1, KeysOf(buckets), windowOf, clock, now);
      if window >= 1 || buckets == [] {} else { assert SomeLimitBelowOne(buckets); }
    } else if window <= 0 {
      ShortWindowCharged(redis, log, buckets, windowOf, window, clock, now, uuid);
      if buckets == [] { NothingScanned(ZLog(redis1), window, now); NothingScanned(log1, window, now); }
    } else {
      PrunedKeepsFresh(redis, buckets, now - window, now, uuid);
      ChargedMatches(redis1, log1, buckets, KeysOf(buckets), windowOf, window, clock, now, uuid);
      var redis2, log2 := RedisCharged(redis1, buckets, window, now, uuid), Charged(log1, buckets, now);
      MidScansAgree(redis2, log2, buckets, windowOf, window, clock, now);
      MidToMatches(redis2, log2, KeysOf(buckets), windowOf, clock, now);
    }
  }

  lemma {:induction false} PrunedKeepsFresh(redis: Redis, buckets: seq<Bucket>, cutoff: int, now: int, uuid: string)
    requires AllFresh(redis, uuid)
    ensures AllFresh(RedisPruned(redis, buckets, cutoff, now), uuid)
  {
    if buckets != [] {
      var n := |buckets| - 1;
      PrunedKeepsFresh(redis, buckets[..n], cutoff, now, uuid);
      var redis1, key := RedisPruned(redis, buckets[..n], cutoff, now), buckets[n].key;
      ZRemUpToScores(Entries(redis1, key), cutoff);
      forall k ensures Fresh(CleanKey(redis1, key, cutoff, now), k, uuid) {
        assert Fresh(redis1, k, uuid);
      }
    }
  }

  /** Redis makes integers of the numbers in a reply; what infinity becomes is up to the platform. */
  ghost predicate KeepsIntegers(toInteger: Count -> Count) {
    forall n: int :: toInteger(Finite(n)) == Finite(n)
  }

  function Received(r: Reply, toInteger: Count -> Count): Reply {
    r.(remaining := toInteger(r.remaining))
  }

  /**
   The caller gets the same reply from both stores iff, for a request that names a bucket, the window is
   positive or a limit below one refuses it; and for one that names none, iff the script's `math.huge`
   arrives as 0.
   */
  lemma StoresAgreeIff(redis: Redis, log: Log, buckets: seq<Bucket>, windowOf: string -> int, window: int,
                       clock: int, now: int, uuid: string, toInteger: Count -> Count)
    requires Matches(redis, log, windowOf, clock) && clock <= now && DistinctKeys(buckets)
    requires WindowIs(buckets, windowOf, window)
    requires AllFresh(redis, uuid) && KeepsIntegers(toInteger)
    ensures Received(ScriptAnswer(redis, buckets, window, now, uuid), toInteger)
              == MemoryAnswer(log, buckets, window, now)
            <==> if buckets == [] then toInteger(Infinite) == Finite(0) else CountsAlike(buckets, window)
  {
    hide Matches, AllFresh, DistinctKeys, SomeLimitBelowOne;
    ScriptRefines(redis, log, buckets, windowOf, window, clock, now, uuid);
    var pruned, stored := Pruned(log, buckets, now - window), RedisPruned(redis, buckets, now - window, now);
    ScanFinite(pruned, buckets, window, now);
    ScanFinite(Charged(pruned, buckets, now), buckets, window, now);
    ScanFinite(ZLog(stored), buckets, window, now);
    ScanFinite(ZLog(RedisCharged(stored, buckets, window, now, uuid)), buckets, window, now);
    if buckets == [] { NothingScanned(pruned, window, now); }
    hide Scanned, Pruned, Charged, RedisPruned, RedisCharged, ZLog;
  }

  /** A window of 0: the first of five requests leaves four in memory, and in Redis still five. */
  lemma ZeroWindowDiffers(now: int, uuid: string)
    ensures MemoryAnswer(map[], [Bucket("k", 5)], 0, now) == Reply(true, 5, Finite(4), 0)
    ensures ScriptAnswer(map[], [Bucket("k", 5)], 0, now, uuid) == Reply(true, 5, Finite(5), 0)
  {
    var one := [Bucket("k", 5)];
    var none: seq<Bucket>, start: Log, empty: Redis := one[..0], map["k" := []], map[];
    assert none == [];
    assert Pruned(map[], one, now) == start;
    assert Charged(start, none, now) == start && Stamps(start, "k") + [now] == [now];
    assert Charged(start, one, now) == start["k" := [now]] == map["k" := [now]];
    assert RedisPruned(empty, none, now, now) == empty && RedisPruned(empty, one, now, now) == empty;
    assert RedisCharged(empty, none, 0, now, uuid) == empty && empty - {"k"} == empty;
    assert RedisCharged(empty, one, 0, now, uuid) == empty;
    OneScanned(map["k" := []], now);
    OneScanned(map["k" := [now]], now);
    OneScanned(map[], now);
    assert ZLog(map[]) == map[];
  }

  lemma OneScanned(log: Log, now: int)
    ensures var stamps := Stamps(log, "k");
            Scanned(log, [Bucket("k", 5)], 0, now)
              == Scan(|stamps| >= 5, if |stamps| >= 5 then Max(0, Reset(stamps, 0, now)) else 0, 5,
                      Finite(Max(0, 5 - |stamps|)), Reset(stamps, 0, now))
  {
    var none: seq<Bucket> := [Bucket("k", 5)][..0];
    assert none == [] && Scanned(log, none, 0, now) == Scan(false, 0, 0, Infinite, 0);
  }

  lemma NothingScanned(log: Log, window: int, now: int)
    ensures Scanned(log, [], window, now) == Scan(false, 0, 0, Infinite, window)
  {}

  // ---------- one request, seen from its buckets ----------

  ghost predicate Full(log: Log, b: Bucket) {
    |Stamps(log, b.key)| >= b.limit
  }

  lemma {:induction false} ScannedMeaning(log: Log, buckets: seq<Bucket>, window: int, now: int)
    ensures var scan := Scanned(log, buckets, window, now);
            && (scan.blocked <==> exists i :: 0 <= i < |buckets| && Full(log, buckets[i]))
            && (forall i :: 0 <= i < |buckets| && Full(log, buckets[i]) ==>
                Reset(Stamps(log, buckets[i].key), window, now) <= scan.retryAfter)
            && 0 <= scan.retryAfter
            && (scan.retryAfter > 0 ==>
                  exists i :: 0 <= i < |buckets| && Full(log, buckets[i])
                              && Reset(Stamps(log, buckets[i].key), window, now) == scan.retryAfter)
  {
    if buckets != [] {
      var n := |buckets| - 1;
      ScannedMeaning(log, buckets[..n], window, now);
      var before, scan := Scanned(log, buckets[..n], window, now), Scanned(log, buckets, window, now);
      assert forall i :: 0 <= i < n ==> buckets[..n][i] == buckets[i];
      if Full(log, buckets[n]) {
        assert Full(log, buckets[n]);
      }
      hide Scanned, Reset, Full;
    }
  }

  lemma {:induction false} PrunedStamps(log: Log, buckets: seq<Bucket>, cutoff: int, key: string)
    requires DistinctKeys(buckets)
    ensures Stamps(Pruned(log, buckets, cutoff), key)
              == if key in KeysOf(buckets) then Live(Stamps(log, key), cutoff) else Stamps(log, key)
  {
    hide Live;
    if buckets != [] {
      KeysOfSnoc(buckets);
      PrunedStamps(log, buckets[..|buckets| - 1], cutoff, key);
    }
  }

  lemma {:induction false} ChargedStamps(log: Log, buckets: seq<Bucket>, now: int, key: string)
    requires DistinctKeys(buckets)
    ensures Stamps(Charged(log, buckets, now), key)
              == if key in KeysOf(buckets) then Stamps(log, key) + [now] else Stamps(log, key)
  {
    if buckets != [] {
      KeysOfSnoc(buckets);
      ChargedStamps(log, buckets[..|buckets| - 1], now, key);
    }
  }

  /** A request charges every one of its buckets or none. */
  lemma AllOrNothing(log: Log, buckets: seq<Bucket>, window: int, now: int, key: string)
    requires DistinctKeys(buckets)
    ensures var live := Live(Stamps(log, key), now - window);
            Stamps(After(log, buckets, window, now), key)
              == if key !in KeysOf(buckets) then Stamps(log, key)
                 else if Answer(log, buckets, window, now).allowed then live + [now] else live
  {
    var pruned := Pruned(log, buckets, now - window);
    PrunedStamps(log, buckets, now - window, key);
    ChargedStamps(pruned, buckets, now, key);
    hide Live, Scanned, Pruned, Charged, Stamps;
  }

  function Left(limit: int, count: int): int { if count >= limit then 0 else limit - count }

  /** The scan reports the first of the buckets with the least left. */
  lemma {:induction false} ScanReports(log: Log, buckets: seq<Bucket>, window: int, now: int) returns (k: nat)
    requires buckets != []
    ensures k < |buckets|
    ensures var scan, stamps := Scanned(log, buckets, window, now), Stamps(log, buckets[k].key);
            && scan.limit == buckets[k].limit && scan.remaining == Finite(Left(buckets[k].limit, |stamps|))
            && scan.reset == Reset(stamps, window, now)
    ensures forall i :: 0 <= i < |buckets| ==>
              var left, least := Left(buckets[i].limit, |Stamps(log, buckets[i].key)|),
                                 Left(buckets[k].limit, |Stamps(log, buckets[k].key)|);
              left >= least && (i < k ==> left > least)
  {
    var n := |buckets| - 1;
    assert forall i :: 0 <= i < n ==> buckets[..n][i] == buckets[i];
    hide Reset, Stamps;
    if n == 0 {
      k := 0;
    } else {
      var j := ScanReports(log, buckets[..n], window, now);
      var fewer := Left(buckets[n].limit, |Stamps(log, buckets[n].key)|)
                   < Left(buckets[j].limit, |Stamps(log, buckets[j].key)|);
      k := if fewer then n else j;
    }
  }

  /** How many live instants a key has, counting this request if it is admitted. */
  function CountAfter(log: Log, key: string, window: int, now: int, admitted: bool): nat {
    |Live(Stamps(log, key), now - window)| + (if admitted then 1 else 0)
  }

  /** When the oldest instant alive at `now` will be gone; with none, a whole window from now. */
  function OldestGone(log: Log, key: string, window: int, now: int): int {
    var live := Live(Stamps(log, key), now - window);
    if live == [] then window else if live[0] + window <= now then 0 else live[0] + window - now
  }

  /**
   The reply is about the first of the buckets with the least left, this request counted if it is admitted;
   an admitted one is told when that bucket's oldest instant goes.
   */
  lemma ReplyIs(log: Log, buckets: seq<Bucket>, window: int, now: int) returns (k: nat)
    requires DistinctKeys(buckets) && buckets != []
    ensures k < |buckets|
    ensures var r := Answer(log, buckets, window, now);
            && r.limit == buckets[k].limit
            && r.remaining == Finite(Left(r.limit, CountAfter(log, buckets[k].key, window, now, r.allowed)))
            && (forall i :: 0 <= i < |buckets| ==>
                  var left := Left(buckets[i].limit, CountAfter(log, buckets[i].key, window, now, r.allowed));
                  r.remaining.n <= left && (i < k ==> r.remaining.n < left))
            && (r.allowed && window >= 0 ==> r.resetAfterMs == OldestGone(log, buckets[k].key, window, now))
  {
    var pruned := Pruned(log, buckets, now - window);
    var allowed := Answer(log, buckets, window, now).allowed;
    var counted := if allowed then Charged(pruned, buckets, now) else pruned;
    forall i | 0 <= i < |buckets|
      ensures |Stamps(counted, buckets[i].key)| == CountAfter(log, buckets[i].key, window, now, allowed)
    {
      CountedStamps(log, buckets, window, now, allowed, i);
    }
    hide Scanned, Pruned, Charged, Stamps, CountAfter, Left;
    k := ScanReports(counted, buckets, window, now);
    CountedStamps(log, buckets, window, now, allowed, k);
  }

  lemma CountedStamps(log: Log, buckets: seq<Bucket>, window: int, now: int, allowed: bool, i: nat)
    requires DistinctKeys(buckets) && i < |buckets|
    ensures var pruned, key := Pruned(log, buckets, now - window), buckets[i].key;
            var stamps := Stamps(if allowed then Charged(pruned, buckets, now) else pruned, key);
            && |stamps| == CountAfter(log, key, window, now, allowed)
            && (allowed && window >= 0 ==> Reset(stamps, window, now) == OldestGone(log, key, window, now))
  {
    assert buckets[i].key in KeysOf(buckets);
    PrunedStamps(log, buckets, now - window, buckets[i].key);
    ChargedStamps(Pruned(log, buckets, now - window), buckets, now, buckets[i].key);
    hide Pruned, Charged, Live, KeysOf;
  }

  /** A refused one is told the longest of the waits of its full buckets. */
  lemma RefusalReset(log: Log, buckets: seq<Bucket>, window: int, now: int)
    requires DistinctKeys(buckets) && !Answer(log, buckets, window, now).allowed && window >= 0
    ensures var r := Answer(log, buckets, window, now);
            && (exists i :: 0 <= i < |buckets|
                  && CountAfter(log, buckets[i].key, window, now, false) >= buckets[i].limit
                  && r.resetAfterMs == OldestGone(log, buckets[i].key, window, now))
            && (forall i :: 0 <= i < |buckets|
                  && CountAfter(log, buckets[i].key, window, now, false) >= buckets[i].limit
                  ==> OldestGone(log, buckets[i].key, window, now) <= r.resetAfterMs)
  {
    var pruned := Pruned(log, buckets, now - window);
    ScannedMeaning(pruned, buckets, window, now);
    forall i | 0 <= i < |buckets|
      ensures Stamps(pruned, buckets[i].key) == Live(Stamps(log, buckets[i].key), now - window)
      ensures Full(pruned, buckets[i]) <==> CountAfter(log, buckets[i].key, window, now, false) >= buckets[i].limit
      ensures 0 <= Reset(Stamps(pruned, buckets[i].key), window, now) == OldestGone(log, buckets[i].key, window, now)
    {
      assert buckets[i].key in KeysOf(buckets);
      PrunedStamps(log, buckets, now - window, buckets[i].key);
    }
    var i :| 0 <= i < |buckets| && Full(pruned, buckets[i]);
    hide Scanned, Pruned, Stamps, Live, Full, Reset, OldestGone, CountAfter;
  }

  /** Asked about no bucket, the store admits, with nothing left of nothing. */
  lemma EmptyReply(log: Log, window: int, now: int)
    ensures MemoryAnswer(log, [], window, now) == Reply(true, 0, Finite(0), window)
  {
    NothingScanned(log, window, now);
  }

  /** It is admitted exactly when none of its buckets is full of live instants. */
  lemma AdmittedIff(log: Log, buckets: seq<Bucket>, window: int, now: int)
    requires DistinctKeys(buckets)
    ensures Answer(log, buckets, window, now).allowed <==>
            forall i :: 0 <= i < |buckets| ==> |Live(Stamps(log, buckets[i].key), now - window)| < buckets[i].limit
  {
    var pruned := Pruned(log, buckets, now - window);
    ScannedMeaning(pruned, buckets, window, now);
    forall i | 0 <= i < |buckets|
      ensures Full(pruned, buckets[i]) <==> |Live(Stamps(log, buckets[i].key), now - window)| >= buckets[i].limit
    {
      PrunedStamps(log, buckets, now - window, buckets[i].key);
    }
    hide Live, Scanned, Pruned, Charged, Stamps;
  }

  // ---------- whole histories ----------

  datatype Request = Request(buckets: seq<Bucket>, window: int, now: int, uuid: string)

  /** The fixed limit and window of each key. */
  datatype Policy = Policy(limitOf: string -> int, windowOf: string -> int)

  ghost predicate Follows(policy: Policy, r: Request) {
    && DistinctKeys(r.buckets) && WindowIs(r.buckets, policy.windowOf, r.window)
    && (forall i :: 0 <= i < |r.buckets| ==> r.buckets[i].limit == policy.limitOf(r.buckets[i].key) >= 1)
  }

  /** A monotone clock, distinct keys within each request, fresh request ids, one policy per key. */
  ghost predicate Trace(policy: Policy, trace: seq<Request>) {
    && (forall i :: 0 <= i < |trace| ==> Follows(policy, trace[i]))
    && (forall i, j :: 0 <= i < j < |trace| ==> trace[i].now <= trace[j].now && trace[i].uuid != trace[j].uuid)
  }

  ghost function LogAfter(trace: seq<Request>): Log {
    if trace == [] then map[]
    else
      var n := |trace| - 1;
      After(LogAfter(trace[..n]), trace[n].buckets, trace[n].window, trace[n].now)
  }

  ghost function RedisAfter(trace: seq<Request>): Redis {
    if trace == [] then map[]
    else
      var n := |trace| - 1;
      ScriptAfter(RedisAfter(trace[..n]), trace[n].buckets, trace[n].window, trace[n].now, trace[n].uuid)
  }

  ghost predicate Accepts(trace: seq<Request>, r: Request) {
    Answer(LogAfter(trace), r.buckets, r.window, r.now).allowed
  }

  /** The instants of the accepted requests that charge `key`. */
  ghost function Accepted(trace: seq<Request>, key: string): seq<int> {
    if trace == [] then []
    else
      var n := |trace| - 1;
      var before := Accepted(trace[..n], key);
      if key in KeysOf(trace[n].buckets) && Accepts(trace[..n], trace[n]) then before + [trace[n].now] else before
  }

  function Clock(trace: seq<Request>, start: int): int {
    if trace == [] then start else trace[|trace| - 1].now
  }

  lemma {:induction false} LiveSuffix(stamps: seq<int>, cutoff: int) returns (k: nat)
    requires Ordered(stamps)
    ensures k <= |stamps| && Live(stamps, cutoff) == stamps[k..] && AllAtMost(stamps[..k], cutoff)
    ensures k < |stamps| ==> stamps[k] > cutoff
  {
    if stamps == [] {
      k := 0;
    } else if stamps[0] > cutoff {
      k := 0;
      LiveOrdered(stamps, cutoff);
    } else {
      var j := LiveSuffix(stamps[1..], cutoff);
      k := j + 1;
      assert stamps[1..][j..] == stamps[k..];
      forall i | 0 <= i < k ensures stamps[i] <= cutoff {
        if i > 0 { assert stamps[i] == stamps[1..][..j][i - 1]; }
      }
    }
  }

  /** What is stored is the tail of what was accepted; what was dropped is a full window old. */
  ghost predicate Tail(all: seq<int>, stored: seq<int>, m: nat, limit: int, window: int, clock: int) {
    && m <= |all| && stored == all[m..] && |stored| <= limit
    && Ordered(all) && AllAtMost(all, clock) && AllAtMost(all[..m], clock - window)
    && (forall i :: 0 <= i && i + limit < |all| ==> all[i] + window <= all[i + limit])
  }

  lemma TailShrinks(all: seq<int>, stored: seq<int>, m: nat, limit: int, window: int, clock: int, now: int)
    returns (m': nat)
    requires Tail(all, stored, m, limit, window, clock) && clock <= now
    ensures Tail(all, Live(stored, now - window), m', limit, window, now)
  {
    assert Ordered(stored);
    hide Live;
    var k := LiveSuffix(stored, now - window);
    m' := m + k;
    assert all[m'..] == stored[k..];
    RaiseBound(all, clock, now);
    RaiseBound(all[..m], clock - window, now - window);
    hide Ordered, AllAtMost;
    PrefixesAtMost(all, m, k, now - window);
  }

  lemma PrefixesAtMost(all: seq<int>, m: nat, k: nat, bound: int)
    requires m + k <= |all| && AllAtMost(all[..m], bound) && AllAtMost(all[m..][..k], bound)
    ensures AllAtMost(all[..m + k], bound)
  {
    forall i | 0 <= i < m + k ensures all[i] <= bound {
      if i < m { assert all[..m][i] == all[i]; } else { assert all[m..][..k][i - m] == all[i]; }
    }
  }

  lemma TailGrows(all: seq<int>, stored: seq<int>, m: nat, limit: int, window: int, now: int)
    requires Tail(all, stored, m, limit, window, now) && |stored| < limit
    ensures Tail(all + [now], stored + [now], m, limit, window, now)
  {
    var longer := all + [now];
    assert longer[m..] == stored + [now] && longer[..m] == all[..m];
    forall i | 0 <= i && i + limit < |longer| ensures longer[i] + window <= longer[i + limit] {
      if i + limit == |all| { assert all[..m][i] == all[i]; }
    }
  }

  lemma TracePrefix(policy: Policy, trace: seq<Request>)
    requires Trace(policy, trace) && trace != []
    ensures var n := |trace| - 1;
            Trace(policy, trace[..n]) && Follows(policy, trace[n]) && Clock(trace[..n], trace[n].now) <= trace[n].now
  {}

  lemma KeyInRequest(policy: Policy, log: Log, r: Request, key: string)
    requires Follows(policy, r) && key in KeysOf(r.buckets)
    ensures r.window == policy.windowOf(key)
    ensures Answer(log, r.buckets, r.window, r.now).allowed ==>
            |Live(Stamps(log, key), r.now - r.window)| < policy.limitOf(key)
  {
    AdmittedIff(log, r.buckets, r.window, r.now);
    hide Live, Stamps, Answer, After;
    var i :| 0 <= i < |r.buckets| && r.buckets[i].key == key;
    assert r.buckets[i].limit == policy.limitOf(key);
  }

  /** A request that names the key: what was stored is cleaned up, then charged if it is admitted. */
  lemma TailNamed(policy: Policy, log: Log, r: Request, key: string, all: seq<int>, stored: seq<int>, m: nat,
                  clock: int)
    returns (m': nat)
    requires Follows(policy, r) && clock <= r.now && key in KeysOf(r.buckets) && stored == Stamps(log, key)
    requires Tail(all, stored, m, policy.limitOf(key), r.window, clock)
    ensures var live := Live(stored, r.now - r.window);
            if Answer(log, r.buckets, r.window, r.now).allowed
            then Tail(all + [r.now], live + [r.now], m', policy.limitOf(key), r.window, r.now)
            else Tail(all, live, m', policy.limitOf(key), r.window, r.now)
  {
    KeyInRequest(policy, log, r, key);
    hide *;
    m' := TailShrinks(all, stored, m, policy.limitOf(key), r.window, clock, r.now);
    if Answer(log, r.buckets, r.window, r.now).allowed {
      TailGrows(all, Live(stored, r.now - r.window), m', policy.limitOf(key), r.window, r.now);
    }
  }

  /** A request that does not name the key only lets time pass for it. */
  lemma TailUnnamed(policy: Policy, log: Log, r: Request, key: string, all: seq<int>, stored: seq<int>, m: nat,
                    clock: int)
    requires Follows(policy, r) && clock <= r.now && key !in KeysOf(r.buckets) && stored == Stamps(log, key)
    requires Tail(all, stored, m, policy.limitOf(key), policy.windowOf(key), clock)
    ensures Stamps(After(log, r.buckets, r.window, r.now), key) == stored
    ensures Tail(all, stored, m, policy.limitOf(key), policy.windowOf(key), r.now)
  {
    assert DistinctKeys(r.buckets);
    hide *;
    AllOrNothing(log, r.buckets, r.window, r.now, key);
    TailAges(all, stored, m, policy.limitOf(key), policy.windowOf(key), clock, r.now);
  }

  lemma StampsNamed(policy: Policy, log: Log, r: Request, key: string)
    requires Follows(policy, r) && key in KeysOf(r.buckets)
    ensures var live := Live(Stamps(log, key), r.now - r.window);
            Stamps(After(log, r.buckets, r.window, r.now), key)
              == if Answer(log, r.buckets, r.window, r.now).allowed then live + [r.now] else live
  {
    assert DistinctKeys(r.buckets);
    hide *;
    AllOrNothing(log, r.buckets, r.window, r.now, key);
  }

  lemma {:induction false} HistoryTail(policy: Policy, trace: seq<Request>, key: string, start: int) returns (m: nat)
    requires Trace(policy, trace) && policy.limitOf(key) >= 1
    ensures Tail(Accepted(trace, key), Stamps(LogAfter(trace), key), m, policy.limitOf(key), policy.windowOf(key),
                 Clock(trace, start))
    decreases |trace|
  {
    if trace == [] {
      m := 0;
    } else {
      var n := |trace| - 1;
      var before, r := trace[..n], trace[n];
      TracePrefix(policy, trace);
      var k := HistoryTail(policy, before, key, r.now);
      var log, all, stored := LogAfter(before), Accepted(before, key), Stamps(LogAfter(before), key);
      hide Tail, After, Answer, Trace, Follows, KeysOf, Live;
      if key in KeysOf(r.buckets) {
        KeyInRequest(policy, log, r, key);
        StampsNamed(policy, log, r, key);
        m := TailNamed(policy, log, r, key, all, stored, k, Clock(before, r.now));
      } else {
        m := k;
        TailUnnamed(policy, log, r, key, all, stored, k, Clock(before, r.now));
      }
    }
  }

  lemma TailAges(all: seq<int>, stored: seq<int>, m: nat, limit: int, window: int, clock: int, now: int)
    requires Tail(all, stored, m, limit, window, clock) && clock <= now
    ensures Tail(all, stored, m, limit, window, now)
  {}

  lemma FarApart(all: seq<int>, stored: seq<int>, m: nat, limit: int, window: int, clock: int, i: nat, j: nat)
    requires Tail(all, stored, m, limit, window, clock) && limit >= 1 && i + limit <= j < |all|
    ensures all[i] + window <= all[j]
  {
    assert all[i + limit] <= all[j];
  }

  /** The rate limit: accepted requests of one key that fit in one window never outnumber its limit. */
  lemma WindowBound(policy: Policy, trace: seq<Request>, key: string, i: nat, j: nat)
    requires Trace(policy, trace) && policy.limitOf(key) >= 1
    requires i <= j < |Accepted(trace, key)|
    requires Accepted(trace, key)[j] - Accepted(trace, key)[i] < policy.windowOf(key)
    ensures j - i + 1 <= policy.limitOf(key)
  {
    var m := HistoryTail(policy, trace, key, 0);
    var all, limit := Accepted(trace, key), policy.limitOf(key);
    if i + limit <= j {
      FarApart(all, Stamps(LogAfter(trace), key), m, limit, policy.windowOf(key), Clock(trace, 0), i, j);
    }
  }

  // ---------- the wait that a refusal reports ----------

  lemma {:induction false} LiveCount(stamps: seq<int>, cutoff: int)
    requires Ordered(stamps)
    ensures |Live(stamps, cutoff)| <= |stamps|
    ensures |Live(stamps, cutoff)| == |stamps| <==> stamps == [] || stamps[0] > cutoff
  {
    if stamps != [] { LiveCount(stamps[1..], cutoff); }
  }

  /** A key in order, up to date at `now`, within its limit, and cleaned up: what a refusal leaves behind. */
  ghost predicate Settled(log: Log, b: Bucket, window: int, now: int) {
    var stamps := Stamps(log, b.key);
    Ordered(stamps) && AllAtMost(stamps, now) && |stamps| <= b.limit && b.limit >= 1
    && (stamps != [] ==> stamps[0] > now - window)
  }

  /** A full bucket is full again at a later instant exactly while its reported reset has not passed. */
  lemma FullUntilReset(log: Log, b: Bucket, window: int, now: int, later: int)
    requires Settled(log, b, window, now) && now <= later
    ensures |Live(Stamps(log, b.key), later - window)| >= b.limit
            <==> Full(log, b) && later < now + Reset(Stamps(log, b.key), window, now)
  {
    LiveCount(Stamps(log, b.key), later - window);
  }

  lemma WaitIsExact(log: Log, buckets: seq<Bucket>, window: int, now: int, later: int)
    requires DistinctKeys(buckets) && now <= later
    requires forall i :: 0 <= i < |buckets| ==> Settled(log, buckets[i], window, now)
    requires Scanned(log, buckets, window, now).blocked
    ensures Answer(log, buckets, window, later).allowed
            <==> later >= now + Scanned(log, buckets, window, now).retryAfter
  {
    var wait := Scanned(log, buckets, window, now).retryAfter;
    AdmittedIff(log, buckets, window, later);
    ScannedMeaning(log, buckets, window, now);
    hide Scanned, Answer, After, DistinctKeys;
    forall i | 0 <= i < |buckets|
      ensures |Live(Stamps(log, buckets[i].key), later - window)| < buckets[i].limit
              <==> !Full(log, buckets[i]) || later >= now + Reset(Stamps(log, buckets[i].key), window, now)
      ensures Full(log, buckets[i]) ==> Reset(Stamps(log, buckets[i].key), window, now) > 0
    {
      FullUntilReset(log, buckets[i], window, now, later);
    }
    hide Live, Full, Reset, Settled, Stamps;
  }

  /** In any history: a refused request, with no traffic since, is admitted at now + resetAfterMs and not before. */
  lemma RefusalWaitIsExact(policy: Policy, trace: seq<Request>, r: Request, later: int)
    requires Trace(policy, trace) && Follows(policy, r) && Clock(trace, r.now) <= r.now <= later
    requires !Accepts(trace, r)
    ensures var refusal := Answer(LogAfter(trace), r.buckets, r.window, r.now);
            var log := After(LogAfter(trace), r.buckets, r.window, r.now);
            Answer(log, r.buckets, r.window, later).allowed <==> later >= r.now + refusal.resetAfterMs
  {
    var before := LogAfter(trace);
    var pruned := Pruned(before, r.buckets, r.now - r.window);
    forall i | 0 <= i < |r.buckets| ensures Settled(pruned, r.buckets[i], r.window, r.now) {
      var key := r.buckets[i].key;
      assert key in KeysOf(r.buckets);
      var m := HistoryTail(policy, trace, key, r.now);
      PrunedStamps(before, r.buckets, r.now - r.window, key);
      var all, stored := Accepted(trace, key), Stamps(before, key);
      assert Tail(all, stored, m, policy.limitOf(key), r.window, Clock(trace, r.now));
      SettledAfterPrune(all, stored, m, policy.limitOf(key), r.window, Clock(trace, r.now), r.now);
      assert Stamps(pruned, key) == Live(stored, r.now - r.window);
      hide Tail, Live, Pruned, Accepted, LogAfter;
    }
    hide Settled, Pruned, LogAfter;
    WaitIsExact(pruned, r.buckets, r.window, r.now, later);
  }

  lemma SettledAfterPrune(all: seq<int>, stored: seq<int>, m: nat, limit: int, window: int, clock: int, now: int)
    requires Tail(all, stored, m, limit, window, clock) && clock <= now
    ensures var live := Live(stored, now - window);
            Ordered(live) && AllAtMost(live, now) && |live| <= limit && (live != [] ==> live[0] > now - window)
  {
    var m' := TailShrinks(all, stored, m, limit, window, clock, now);
    var k := LiveSuffix(stored, now - window);
  }

  // ---------- the refinement over whole traces ----------

  ghost predicate KnownIds(redis: Redis, trace: seq<Request>) {
    forall key :: KnownIdsAt(redis, key, trace)
  }

  ghost predicate KnownIdsAt(redis: Redis, key: string, trace: seq<Request>) {
    forall e :: e in Entries(redis, key) ==> exists i :: 0 <= i < |trace| && trace[i].uuid == e.member.uuid
  }

  lemma CleanKeyEntries(redis: Redis, key: string, cutoff: int, now: int)
    ensures forall k, e :: e in Entries(CleanKey(redis, key, cutoff, now), k) ==> e in Entries(redis, k)
  {
    ZRemUpToScores(Entries(redis, key), cutoff);
  }

  lemma {:induction false} PrunedKeepsIds(redis: Redis, buckets: seq<Bucket>, cutoff: int, now: int,
                                          trace: seq<Request>)
    requires KnownIds(redis, trace)
    ensures KnownIds(RedisPruned(redis, buckets, cutoff, now), trace)
  {
    if buckets != [] {
      var n := |buckets| - 1;
      PrunedKeepsIds(redis, buckets[..n], cutoff, now, trace);
      var redis1, key := RedisPruned(redis, buckets[..n], cutoff, now), buckets[n].key;
      CleanKeyEntries(redis1, key, cutoff, now);
      forall k ensures KnownIdsAt(CleanKey(redis1, key, cutoff, now), k, trace) {
        assert KnownIdsAt(redis1, k, trace);
        hide CleanKey;
      }
    }
  }

  lemma {:induction false} InsertedEntries(z: seq<Entry>, e: Entry)
    ensures forall f :: f in InsertEntry(z, e) ==> f == e || f in z
  {
    if z != [] && !Before(e, z[0]) { InsertedEntries(z[1..], e); }
  }

  lemma {:induction false} WithoutKeeps(z: seq<Entry>, m: Member)
    ensures forall f :: f in WithoutMember(z, m) ==> f in z
  {
    if z != [] { WithoutKeeps(z[1..], m); }
  }

  lemma {:induction false} ChargedKeepsIds(redis: Redis, buckets: seq<Bucket>, window: int, now: int, uuid: string,
                                           trace: seq<Request>)
    requires KnownIds(redis, trace) && exists i :: 0 <= i < |trace| && trace[i].uuid == uuid
    ensures KnownIds(RedisCharged(redis, buckets, window, now, uuid), trace)
  {
    if buckets != [] {
      var n := |buckets| - 1;
      ChargedKeepsIds(redis, buckets[..n], window, now, uuid, trace);
      var redis1, key := RedisCharged(redis, buckets[..n], window, now, uuid), buckets[n].key;
      var member := Member(uuid, n + 1);
      WithoutKeeps(Entries(redis1, key), member);
      InsertedEntries(WithoutMember(Entries(redis1, key), member), Entry(now, member));
      forall k ensures KnownIdsAt(ChargeKey(redis1, key, window, now, member), k, trace) {
        assert KnownIdsAt(redis1, k, trace);
      }
    }
  }

  lemma ScriptKeepsIds(redis: Redis, r: Request, trace: seq<Request>)
    requires KnownIds(redis, trace) && trace != [] && r == trace[|trace| - 1]
    ensures KnownIds(ScriptAfter(redis, r.buckets, r.window, r.now, r.uuid), trace)
  {
    hide KnownIds, Scanned, ZLog;
    PrunedKeepsIds(redis, r.buckets, r.now - r.window, r.now, trace);
    var pruned := RedisPruned(redis, r.buckets, r.now - r.window, r.now);
    ChargedKeepsIds(pruned, r.buckets, r.window, r.now, r.uuid, trace);
  }

  /** Both stores, fed the same trace: they match at its end, and hold no request id from outside it. */
  lemma {:induction false} TraceMatches(policy: Policy, trace: seq<Request>, start: int)
    requires Trace(policy, trace)
    ensures Matches(RedisAfter(trace), LogAfter(trace), policy.windowOf, Clock(trace, start))
    ensures KnownIds(RedisAfter(trace), trace)
    decreases |trace|
  {
    if trace != [] {
      var n := |trace| - 1;
      var before, r := trace[..n], trace[n];
      TracePrefix(policy, trace);
      TraceMatches(policy, before, r.now);
      FreshNext(policy, trace);
      var redis, log := RedisAfter(before), LogAfter(before);
      assert RedisAfter(trace) == ScriptAfter(redis, r.buckets, r.window, r.now, r.uuid);
      assert LogAfter(trace) == After(log, r.buckets, r.window, r.now);
      hide Matches, KnownIds, Trace, RedisAfter, LogAfter, AllFresh, After, DistinctKeys, WindowIs;
      ScriptRefines(redis, log, r.buckets, policy.windowOf, r.window, Clock(before, r.now), r.now, r.uuid);
      KnownIdsGrow(redis, trace);
      hide Follows;
      ScriptKeepsIds(redis, r, trace);
    }
  }

  lemma KnownIdsGrow(redis: Redis, trace: seq<Request>)
    requires trace != [] && KnownIds(redis, trace[..|trace| - 1])
    ensures KnownIds(redis, trace)
  {
    var before := trace[..|trace| - 1];
    forall key ensures KnownIdsAt(redis, key, trace) {
      assert KnownIdsAt(redis, key, before);
      forall e | e in Entries(redis, key) ensures exists i :: 0 <= i < |trace| && trace[i].uuid == e.member.uuid {
        var i :| 0 <= i < |before| && before[i].uuid == e.member.uuid;
        assert trace[i].uuid == e.member.uuid;
      }
    }
  }

  lemma FreshNext(policy: Policy, trace: seq<Request>)
    requires Trace(policy, trace) && trace != [] && KnownIds(RedisAfter(trace[..|trace| - 1]), trace[..|trace| - 1])
    ensures AllFresh(RedisAfter(trace[..|trace| - 1]), trace[|trace| - 1].uuid)
  {
    var n := |trace| - 1;
    var redis, uuid := RedisAfter(trace[..n]), trace[n].uuid;
    hide RedisAfter;
    forall key ensures Fresh(redis, key, uuid) {
      assert KnownIdsAt(redis, key, trace[..n]);
    }
  }

  /** On every trace, callers get the same reply from both stores iff the window is positive, if they name a bucket. */
  lemma TraceRefines(policy: Policy, trace: seq<Request>, n: nat, toInteger: Count -> Count)
    requires Trace(policy, trace) && n < |trace| && KeepsIntegers(toInteger)
    ensures var r := trace[n];
            Received(ScriptAnswer(RedisAfter(trace[..n]), r.buckets, r.window, r.now, r.uuid), toInteger)
              == MemoryAnswer(LogAfter(trace[..n]), r.buckets, r.window, r.now)
            <==> if r.buckets == [] then toInteger(Infinite) == Finite(0) else r.window >= 1
  {
    var upTo, r := trace[..n + 1], trace[n];
    assert upTo[..n] == trace[..n] && upTo[n] == r;
    TracePrefix(policy, upTo);
    TraceMatches(policy, trace[..n], r.now);
    FreshNext(policy, upTo);
    hide Matches, AllFresh, KnownIds, ScriptAnswer, MemoryAnswer, RedisAfter, LogAfter;
    StoresAgreeIff(RedisAfter(trace[..n]), LogAfter(trace[..n]), r.buckets, policy.windowOf, r.window,
                   Clock(trace[..n], r.now), r.now, r.uuid, toInteger);
  }
}
