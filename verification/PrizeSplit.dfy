/** The prize curve of `settle_internal`: expected payouts and the loop that matches winners to them. */
module PrizeSplit {
  import opened Wrappers
  import opened Host
  import opened Sums

  const UNIT: int := 100_000
  const FULL_BPS: int := 10_000

  // ---------- basis points ----------

  /** A non-last share: whole units only, rounded down twice. */
  function Share(pool: nat, bps: nat): nat {
    (pool / UNIT * bps) / FULL_BPS * UNIT
  }

  /** The last share takes whatever is left of `remaining`. */
  function BpsPayouts(pool: nat, splits: seq<U32>, remaining: int): (payouts: seq<int>)
    ensures |payouts| == |splits|
  {
    if splits == [] then []
    else if |splits| == 1 then [remaining]
    else [Share(pool, splits[0])] + BpsPayouts(pool, splits[1..], remaining - Share(pool, splits[0]))
  }

  /** Rounding loses less than one unit, plus this share's part of the pool's odd remainder. */
  lemma ShareError(pool: nat, bps: nat)
    requires bps <= FULL_BPS
    ensures Share(pool, bps) % UNIT == 0
    ensures 0 <= pool * bps - FULL_BPS * Share(pool, bps) <= 9_999 * UNIT + (pool % UNIT) * bps
    ensures (pool % UNIT) * bps <= (UNIT - 1) * FULL_BPS
  {
    var cents, odd := pool / UNIT, pool % UNIT;
    var product := cents * bps;
    assert pool * bps == product * UNIT + odd * bps by {
      assert pool == cents * UNIT + odd;
      assert (cents * UNIT + odd) * bps == cents * UNIT * bps + odd * bps;
      assert cents * UNIT * bps == product * UNIT;
    }
    assert product == product / FULL_BPS * FULL_BPS + product % FULL_BPS;
    MulMonotone(odd, UNIT - 1, bps, FULL_BPS);
  }

  lemma MulMonotone(a: nat, b: nat, c: nat, d: nat)
    requires a <= b && c <= d
    ensures a * c <= b * d
  {
    assert a * c <= b * c <= b * d by {
      assert 0 <= (b - a) * c == b * c - a * c;
      assert 0 <= b * (d - c) == b * d - b * c;
    }
  }

  ghost predicate FairShare(pool: nat, bps: nat, payout: int) {
    payout % UNIT == 0 && 0 <= pool * bps - FULL_BPS * payout < FULL_BPS * 2 * UNIT
  }

  function Shares(pool: nat, splits: seq<U32>): (shares: seq<int>)
    ensures |shares| == |splits|
  {
    if splits == [] then [] else [Share(pool, splits[0])] + Shares(pool, splits[1..])
  }

  /** Every payout but the last is a share; the last is the pool less those shares. */
  lemma {:induction false} BpsPayoutsShape(pool: nat, splits: seq<U32>, remaining: int)
    requires splits != []
    ensures var last := |splits| - 1;
            var shares := Shares(pool, splits[..last]);
            BpsPayouts(pool, splits, remaining) == shares + [remaining - Total(shares)]
  {
    if |splits| > 1 {
      var share, rest := Share(pool, splits[0]), splits[1..];
      BpsPayoutsShape(pool, rest, remaining - share);
      assert splits[..|splits| - 1][1..] == rest[..|rest| - 1];
      var shares := Shares(pool, splits[..|splits| - 1]);
      assert shares == [share] + Shares(pool, rest[..|rest| - 1]);
    }
  }

  /** What rounding costs the first shares together, against their exact value. */
  lemma {:induction false} SharesError(pool: nat, splits: seq<U32>)
    requires forall i :: 0 <= i < |splits| ==> splits[i] <= FULL_BPS
    ensures var shares := Shares(pool, splits);
            && (forall i :: 0 <= i < |splits| ==> FairShare(pool, splits[i], shares[i]) && shares[i] >= 0)
            && 0 <= pool * Total(splits) - FULL_BPS * Total(shares)
                 <= |splits| * (9_999 * UNIT) + (pool % UNIT) * Total(splits)
  {
    if splits != [] {
      var b, rest := splits[0], splits[1..];
      SharesError(pool, rest);
      ShareError(pool, b);
      ErrorsAdd(pool, pool % UNIT, b, Total(rest), Share(pool, b), Total(Shares(pool, rest)), |rest|);
      var shares, tail := Shares(pool, splits), Shares(pool, rest);
      assert shares[1..] == tail;
      forall i | 0 <= i < |splits|
        ensures FairShare(pool, splits[i], shares[i]) && shares[i] >= 0
      {
        if i > 0 { assert shares[i] == tail[i - 1] && splits[i] == rest[i - 1]; }
      }
    }
  }

  lemma ErrorsAdd(pool: int, odd: int, b: int, t: int, share: int, shares: int, n: int)
    requires 0 <= pool * b - FULL_BPS * share <= 9_999 * UNIT + odd * b
    requires 0 <= pool * t - FULL_BPS * shares <= n * (9_999 * UNIT) + odd * t
    ensures 0 <= pool * (b + t) - FULL_BPS * (share + shares) <= (n + 1) * (9_999 * UNIT) + odd * (b + t)
  {
    assert pool * (b + t) == pool * b + pool * t;
    assert odd * (b + t) == odd * b + odd * t;
  }

  /** The basis-point split: nothing is lost, nobody is shorted by two units, the last takes the rest. */
  lemma BpsSplit(pool: nat, splits: seq<U32>)
    requires forall i :: 0 <= i < |splits| ==> splits[i] <= FULL_BPS
    requires Total(splits) == FULL_BPS
    ensures var payouts := BpsPayouts(pool, splits, pool);
            var last := |splits| - 1;
            && |payouts| == |splits| > 0
            && Total(payouts) == pool
            && (forall i :: 0 <= i < |splits| ==> payouts[i] >= 0)
            && (forall i :: 0 <= i < last ==> FairShare(pool, splits[i], payouts[i]))
            && 0 <= FULL_BPS * payouts[last] - pool * splits[last] < FULL_BPS * |splits| * UNIT
  {
    var last := |splits| - 1;
    var first := splits[..last];
    var shares := Shares(pool, first);
    BpsPayoutsShape(pool, splits, pool);
    SharesError(pool, first);
    TotalSnoc(shares, pool - Total(shares));
    assert splits == first + [splits[last]];
    TotalSnoc(first, splits[last]);
    LastShare(pool, pool % UNIT, splits[last], Total(first), Total(shares), last);
    assert forall i :: 0 <= i < last ==> splits[i] == first[i];
  }

  lemma LastShare(pool: nat, odd: nat, b: nat, t: int, shares: int, n: nat)
    requires b + t == FULL_BPS && odd < UNIT && b <= FULL_BPS
    requires 0 <= pool * t - FULL_BPS * shares <= n * (9_999 * UNIT) + odd * t
    ensures 0 <= FULL_BPS * (pool - shares) - pool * b < FULL_BPS * (n + 1) * UNIT
    ensures pool - shares >= 0
  {
    assert pool * FULL_BPS == pool * b + pool * t;
    MulMonotone(odd, UNIT - 1, t, FULL_BPS);
    assert pool * b >= 0;
  }

  /** The `u32` accumulator saturates instead of wrapping. */
  function SaturatingTotal(sum: U32, splits: seq<U32>): U32
    decreases splits
  {
    if splits == [] then sum
    else SaturatingTotal(if sum + splits[0] > U32_MAX then U32_MAX else sum + splits[0], splits[1..])
  }

  lemma {:induction false} SaturatingTotalExact(sum: U32, splits: seq<U32>)
    ensures SaturatingTotal(sum, splits) == if sum + Total(splits) > U32_MAX then U32_MAX else sum + Total(splits)
    decreases splits
  {
    TotalNonNegative(splits);
    if splits != [] {
      TotalNonNegative(splits[1..]);
      SaturatingTotalExact(if sum + splits[0] > U32_MAX then U32_MAX else sum + splits[0], splits[1..]);
    }
  }

  // ---------- the fixed curve ----------

  datatype Curve = Curve(expected: seq<int>, tiedFirst: seq<int>)

  predicate ValidSplits(splits: seq<U32>, count: nat) {
    && |splits| == count && splits != []
    && (forall i :: 0 <= i < |splits| ==> splits[i] <= FULL_BPS)
    && SaturatingTotal(0, splits) == FULL_BPS
  }

  /** The curve over unbounded integers, as it is meant. */
  function PrizeCurve(pool: nat, count: nat, bps: Option<seq<U32>>): (r: Result<Curve>)
    ensures r.Err? ==> r.error == InvalidPrizeDistribution
    ensures r.Ok? ==> count > 0 && |r.value.expected| == count
    ensures r.Ok? ==> r.value.tiedFirst == [] || (|r.value.tiedFirst| == count && count >= 2)
  {
    match bps
    case Some(splits) =>
      if !ValidSplits(splits, count) then Err(InvalidPrizeDistribution)
      else Ok(Curve(BpsPayouts(pool, splits, pool), []))
    case None =>
      if count == 0 then Err(InvalidPrizeDistribution)
      else if count == 1 then Ok(Curve([pool], []))
      else if count == 2 then
        var first, tie := pool * 70 / 100, pool / 2;
        Ok(Curve([first, pool - first], [tie, pool - tie]))
      else
        var first, second := pool * 60 / 100, pool * 30 / 100;
        var third, tie, rest := pool - first - second, (first + second) / 2, seq(count - 3, _ => 0);
        Ok(Curve([first, second, third] + rest, [tie, first + second - tie, third] + rest))
  }

  function UsesTiedFirst(amounts: seq<int>, curve: Curve): bool
    requires curve.tiedFirst == [] || |curve.tiedFirst| == |amounts|
  {
    |amounts| >= 2 && curve.tiedFirst != [] && amounts[0] == curve.tiedFirst[0] && amounts[1] == curve.tiedFirst[1]
  }

  predicate Matches(amounts: seq<int>, curve: Curve, i: nat)
    requires i < |amounts| == |curve.expected|
    requires curve.tiedFirst == [] || |curve.tiedFirst| == |amounts|
  {
    amounts[i] == curve.expected[i] || (UsesTiedFirst(amounts, curve) && amounts[i] == curve.tiedFirst[i])
  }

  /** The verdict of the matching loop from winner `i` on: the first fault met decides. */
  function MatchFrom(amounts: seq<int>, curve: Curve, i: nat): (check: Check)
    requires i <= |amounts| == |curve.expected|
    requires curve.tiedFirst == [] || |curve.tiedFirst| == |amounts|
    ensures check.Fail? ==> check.error in {InvalidAmount, InvalidPrizeDistribution}
    decreases |amounts| - i
  {
    if i == |amounts| then Pass
    else if amounts[i] < 0 then Fail(InvalidAmount)
    else if !Matches(amounts, curve, i) then Fail(InvalidPrizeDistribution)
    else MatchFrom(amounts, curve, i + 1)
  }

  lemma {:induction false} MatchFromPass(amounts: seq<int>, curve: Curve, i: nat)
    requires i <= |amounts| == |curve.expected|
    requires curve.tiedFirst == [] || |curve.tiedFirst| == |amounts|
    ensures MatchFrom(amounts, curve, i).Pass? <==>
            forall k :: i <= k < |amounts| ==> amounts[k] >= 0 && Matches(amounts, curve, k)
    decreases |amounts| - i
  {
    if i < |amounts| { MatchFromPass(amounts, curve, i + 1); }
  }

  /** Accepted winners share out the pool exactly, whichever of the five modes is used. */
  lemma AcceptedWinnersSumToPool(pool: nat, amounts: seq<int>, bps: Option<seq<U32>>)
    requires PrizeCurve(pool, |amounts|, bps).Ok?
    requires MatchFrom(amounts, PrizeCurve(pool, |amounts|, bps).value, 0).Pass?
    ensures Total(amounts) == pool
    ensures forall i :: 0 <= i < |amounts| ==> amounts[i] >= 0
  {
    var curve := PrizeCurve(pool, |amounts|, bps).value;
    MatchFromPass(amounts, curve, 0);
    match bps
    case Some(splits) =>
      assert forall k :: 0 <= k < |amounts| ==> Matches(amounts, curve, k);
      assert amounts == curve.expected;
      BpsCurveSum(pool, |amounts|, splits);
    case None =>
      if |amounts| < 3 {
        ShortCurveSum(pool, amounts);
      } else {
        FixedCurveSum(pool, amounts);
      }
  }

  lemma ShortCurveSum(pool: nat, amounts: seq<int>)
    requires 1 <= |amounts| <= 2
    requires var curve := PrizeCurve(pool, |amounts|, None).value;
             forall k :: 0 <= k < |amounts| ==> Matches(amounts, curve, k)
    ensures Total(amounts) == pool
  {
    var curve := PrizeCurve(pool, |amounts|, None).value;
    assert Matches(amounts, curve, 0);
    if |amounts| == 2 {
      assert Matches(amounts, curve, 1);
      assert amounts[0] + amounts[1] == pool;
      assert Total(amounts[1..]) == amounts[1];
    }
  }

  lemma BpsCurveSum(pool: nat, count: nat, splits: seq<U32>)
    requires PrizeCurve(pool, count, Some(splits)).Ok?
    ensures Total(PrizeCurve(pool, count, Some(splits)).value.expected) == pool
  {
    SaturatingTotalExact(0, splits);
    BpsSplit(pool, splits);
  }

  lemma FixedCurveSum(pool: nat, amounts: seq<int>)
    requires |amounts| >= 3
    requires var curve := PrizeCurve(pool, |amounts|, None).value;
             forall k :: 0 <= k < |amounts| ==> Matches(amounts, curve, k)
    ensures Total(amounts) == pool
  {
    var curve := PrizeCurve(pool, |amounts|, None).value;
    var rest := amounts[3..];
    forall k | 0 <= k < |rest| ensures rest[k] == 0 { assert Matches(amounts, curve, k + 3); }
    TotalZeros(rest);
    assert Matches(amounts, curve, 0) && Matches(amounts, curve, 1) && Matches(amounts, curve, 2);
    assert amounts[0] + amounts[1] + amounts[2] == pool;
    assert amounts[1..][1..] == amounts[2..] && amounts[2..][1..] == rest;
    assert Total(amounts) == amounts[0] + Total(amounts[1..]);
    assert Total(amounts[1..]) == amounts[1] + Total(amounts[2..]);
    assert Total(amounts[2..]) == amounts[2] + Total(rest);
  }

  lemma {:induction false} TotalZeros(xs: seq<int>)
    requires forall i :: 0 <= i < |xs| ==> xs[i] == 0
    ensures Total(xs) == 0
  {
    if xs != [] { TotalZeros(xs[1..]); }
  }

  /** A whole number of percent of the pool, rounded down. */
  ghost predicate PercentOf(pool: nat, percent: nat, payout: int) {
    0 <= pool * percent - 100 * payout < 100
  }

  /** The places of the fixed curves: who gets what share of the pool, alone or tied for the first place. */
  lemma CurvePlaces(pool: nat, count: nat)
    requires count >= 1
    ensures PrizeCurve(pool, count, None).Ok?
    ensures var e, t := PrizeCurve(pool, count, None).value.expected, PrizeCurve(pool, count, None).value.tiedFirst;
            && |e| == count && Total(e) == pool && (forall i :: 0 <= i < count ==> e[i] >= 0)
            && (count == 1 ==> e == [pool] && t == [])
            && (count == 2 ==> PercentOf(pool, 70, e[0]))
            && (count >= 3 ==> PercentOf(pool, 60, e[0]) && PercentOf(pool, 30, e[1])
                               && 10 * pool <= 100 * e[2] < 10 * pool + 200)
            && (forall i :: 3 <= i < count ==> e[i] == 0)
            && (count >= 2 ==>
                  |t| == count && 0 <= t[1] - t[0] <= 1 && t[0] + t[1] == e[0] + e[1]
                  && t[2..] == e[2..] && Total(t) == pool && (forall i :: 0 <= i < count ==> t[i] >= 0))
  {
    var curve := PrizeCurve(pool, count, None).value;
    CurveTotal(pool, curve.expected, curve);
    if count >= 2 { CurveTotal(pool, curve.tiedFirst, curve); }
    hide Total;
  }

  lemma CurveTotal(pool: nat, amounts: seq<int>, curve: Curve)
    requires amounts != [] && PrizeCurve(pool, |amounts|, None) == Ok(curve)
    requires amounts == curve.expected || amounts == curve.tiedFirst
    ensures Total(amounts) == pool
  {
    if |amounts| < 3 { ShortCurveSum(pool, amounts); } else { FixedCurveSum(pool, amounts); }
  }

  /** The list is the curve, or the curve with the first place shared. */
  ghost predicate OnCurve(amounts: seq<int>, curve: Curve) {
    amounts == curve.expected || (curve.tiedFirst != [] && amounts == curve.tiedFirst)
  }

  /** A shape in which no mixture of the two can pass. */
  ghost predicate WellShaped(curve: Curve) {
    && (forall i :: 0 <= i < |curve.expected| ==> curve.expected[i] >= 0)
    && (curve.tiedFirst != [] ==>
          |curve.tiedFirst| == |curve.expected| >= 2
          && forall i :: 0 <= i < |curve.expected| ==>
               curve.tiedFirst[i] >= 0 && (i >= 2 ==> curve.tiedFirst[i] == curve.expected[i]))
  }

  lemma CurveShaped(pool: nat, count: nat, bps: Option<seq<U32>>)
    requires PrizeCurve(pool, count, bps).Ok?
    ensures WellShaped(PrizeCurve(pool, count, bps).value)
  {
    if bps.Some? {
      SaturatingTotalExact(0, bps.value);
      BpsSplit(pool, bps.value);
      hide BpsPayouts;
    } else {
      CurvePlaces(pool, count);
      var curve := PrizeCurve(pool, count, None).value;
      hide PrizeCurve, PercentOf, Total;
      if curve.tiedFirst != [] {
        forall i | 2 <= i < count ensures curve.tiedFirst[i] == curve.expected[i] {
          assert curve.tiedFirst[2..][i - 2] == curve.expected[2..][i - 2];
        }
      }
    }
  }

  lemma MatchedIsOnCurve(amounts: seq<int>, curve: Curve)
    requires |amounts| == |curve.expected| && WellShaped(curve)
    requires forall k :: 0 <= k < |amounts| ==> amounts[k] >= 0 && Matches(amounts, curve, k)
    ensures OnCurve(amounts, curve)
  {
    if UsesTiedFirst(amounts, curve) {
      forall k | 0 <= k < |amounts| ensures amounts[k] == curve.tiedFirst[k] { assert Matches(amounts, curve, k); }
    } else {
      forall k | 0 <= k < |amounts| ensures amounts[k] == curve.expected[k] { assert Matches(amounts, curve, k); }
    }
  }

  lemma OnCurveMatches(amounts: seq<int>, curve: Curve)
    requires |amounts| == |curve.expected| && WellShaped(curve) && OnCurve(amounts, curve)
    ensures forall k :: 0 <= k < |amounts| ==> amounts[k] >= 0 && Matches(amounts, curve, k)
  {
    if amounts != curve.expected { assert UsesTiedFirst(amounts, curve); }
  }

  /** Accepted lists are exactly these: no mixture of the two gets through. */
  lemma AcceptedIff(pool: nat, amounts: seq<int>, bps: Option<seq<U32>>)
    requires PrizeCurve(pool, |amounts|, bps).Ok?
    ensures var curve := PrizeCurve(pool, |amounts|, bps).value;
            MatchFrom(amounts, curve, 0).Pass? <==> OnCurve(amounts, curve)
  {
    var curve := PrizeCurve(pool, |amounts|, bps).value;
    CurveShaped(pool, |amounts|, bps);
    MatchFromPass(amounts, curve, 0);
    hide PrizeCurve, MatchFrom, WellShaped, Matches;
    if MatchFrom(amounts, curve, 0).Pass? { MatchedIsOnCurve(amounts, curve); }
    if OnCurve(amounts, curve) {
      hide OnCurve;
      OnCurveMatches(amounts, curve);
    }
  }

  // ---------- the same in i128 ----------

  /** The basis-point loop step by step, each step trapping if it leaves i128. */
  function CheckedBps(pool: int, splits: seq<U32>, remaining: int): (r: Result<seq<int>>)
    ensures r.Ok? ==> |r.value| == |splits|
    ensures r.Err? ==> r.error == HostTrap
  {
    if splits == [] then Ok([])
    else if |splits| == 1 then Ok([remaining])
    else
      var product :- CheckedI128(Quot(pool, UNIT) * splits[0]);
      var share :- CheckedI128(Quot(product, FULL_BPS) * UNIT);
      var left :- CheckedI128(remaining - share);
      var rest :- CheckedBps(pool, splits[1..], left);
      Ok([share] + rest)
  }

  predicate Fits(n: int) { -I128_MAX - 1 <= n <= I128_MAX }

  /** Only the products can leave the range: everything after them is smaller (StepsFit). */
  function CheckedPair(pool: int): (r: Result<Curve>)
    ensures r.Ok? ==> |r.value.expected| == |r.value.tiedFirst| == 2
    ensures r.Err? ==> r.error == HostTrap
  {
    var scaled :- CheckedI128(pool * 70);
    var first, tie := Quot(scaled, 100), Quot(pool, 2);
    Ok(Curve([first, pool - first], [tie, pool - tie]))
  }

  function CheckedPodium(pool: int, count: nat): (r: Result<Curve>)
    requires count >= 3
    ensures r.Ok? ==> |r.value.expected| == |r.value.tiedFirst| == count
    ensures r.Err? ==> r.error == HostTrap
  {
    var sixty :- CheckedI128(pool * 60);
    var thirty :- CheckedI128(pool * 30);
    StepsFit(pool);
    var first, second := Quot(sixty, 100), Quot(thirty, 100);
    var third, tie := pool - first - second, Quot(first + second, 2);
    var rest := seq(count - 3, _ => 0);
    Ok(Curve([first, second, third] + rest, [tie, first + second - tie, third] + rest))
  }

  /** The sums and differences of the podium's shares. */
  lemma StepsFit(pool: int)
    requires Fits(pool * 60)
    ensures var first, second := Quot(pool * 60, 100), Quot(pool * 30, 100);
            && Fits(pool) && Fits(pool - first) && Fits(pool - first - second) && Fits(first + second)
            && Fits(first + second - Quot(first + second, 2))
  {}

  function CheckedCurve(pool: int, count: nat, bps: Option<seq<U32>>): (r: Result<Curve>)
    ensures r.Ok? ==> count > 0 && |r.value.expected| == count
    ensures r.Ok? ==> r.value.tiedFirst == [] || (|r.value.tiedFirst| == count && count >= 2)
    ensures r.Err? ==> r.error in {InvalidPrizeDistribution, HostTrap}
  {
    match bps
    case Some(splits) =>
      if !ValidSplits(splits, count) then Err(InvalidPrizeDistribution)
      else
        var expected :- CheckedBps(pool, splits, pool);
        Ok(Curve(expected, []))
    case None =>
      if count == 0 then Err(InvalidPrizeDistribution)
      else if count == 1 then Ok(Curve([pool], []))
      else if count == 2 then CheckedPair(pool)
      else CheckedPodium(pool, count)
  }

  /** The matching loop from winner `i` on, with its running sum. */
  function MatchSum(amounts: seq<int>, curve: Curve, i: nat, sum: int): (r: Result<int>)
    requires i <= |amounts| == |curve.expected|
    requires curve.tiedFirst == [] || |curve.tiedFirst| == |amounts|
    ensures r.Err? ==> r.error in {InvalidAmount, InvalidPrizeDistribution, HostTrap}
    decreases |amounts| - i
  {
    if i == |amounts| then Ok(sum)
    else if amounts[i] < 0 then Err(InvalidAmount)
    else if !Matches(amounts, curve, i) then Err(InvalidPrizeDistribution)
    else
      var next :- CheckedI128(sum + amounts[i]);
      MatchSum(amounts, curve, i + 1, next)
  }

  /** The fee plus all prizes, if the list is accepted. */
  function CheckWinners(total: int, fee: I128, amounts: seq<int>, bps: Option<seq<U32>>): (r: Result<int>)
    ensures r.Err? ==> r.error in {InvalidAmount, InvalidPrizeDistribution, HostTrap}
  {
    var pool :- CheckedI128(total - fee);
    var curve :- CheckedCurve(pool, |amounts|, bps);
    MatchSum(amounts, curve, 0, fee)
  }

  /** What the check is meant to say. */
  function Verdict(total: int, fee: int, amounts: seq<int>, bps: Option<seq<U32>>): (r: Result<int>)
    requires total >= fee
    ensures r.Err? ==> r.error in {InvalidAmount, InvalidPrizeDistribution}
  {
    var curve :- PrizeCurve(total - fee, |amounts|, bps);
    var check := MatchFrom(amounts, curve, 0);
    if check.Fail? then Err(check.error) else Ok(fee + Total(amounts))
  }

  /** While the remainder covers the exact shares still to come, no step leaves the range. */
  lemma {:induction false} BpsInRange(pool: nat, splits: seq<U32>, remaining: nat)
    requires pool <= I128_MAX && remaining <= I128_MAX
    requires forall i :: 0 <= i < |splits| ==> splits[i] <= FULL_BPS
    requires FULL_BPS * remaining >= pool * Total(splits)
    ensures CheckedBps(pool, splits, remaining) == Ok(BpsPayouts(pool, splits, remaining))
  {
    if |splits| > 1 {
      var b, rest := splits[0], splits[1..];
      var share := Share(pool, b);
      ShareError(pool, b);
      TotalNonNegative(rest);
      assert pool * Total(splits) == pool * b + pool * Total(rest);
      assert pool * Total(rest) >= 0;
      ProductInRange(pool, b);
      BpsInRange(pool, rest, remaining - share);
    }
  }

  lemma ProductInRange(pool: nat, bps: nat)
    requires bps <= FULL_BPS
    ensures 0 <= pool / UNIT * bps <= pool
  {
    MulMonotone(pool / UNIT, pool / UNIT, bps, FULL_BPS);
  }

  /** If 500 times the pool fits, so does every step of the curve. */
  lemma CurveInRange(pool: nat, count: nat, bps: Option<seq<U32>>)
    requires pool * 500 <= I128_MAX
    ensures CheckedCurve(pool, count, bps) == PrizeCurve(pool, count, bps)
  {
    hide CheckedPair, CheckedPodium, BpsPayouts, CheckedBps, SaturatingTotal;
    match bps
    case Some(splits) =>
      if ValidSplits(splits, count) {
        SaturatingTotalExact(0, splits);
        assert pool * Total(splits) == FULL_BPS * pool;
        BpsInRange(pool, splits, pool);
      }
    case None =>
      if count == 2 { PairInRange(pool); }
      if count >= 3 { PodiumInRange(pool, count); }
  }

  lemma PairInRange(pool: nat)
    requires pool * 500 <= I128_MAX
    ensures CheckedPair(pool) == PrizeCurve(pool, 2, None)
  {}

  lemma PodiumInRange(pool: nat, count: nat)
    requires pool * 500 <= I128_MAX && count >= 3
    ensures CheckedPodium(pool, count) == PrizeCurve(pool, count, None)
  {
    var rest := seq(count - 3, _ => 0);
    var first, second := pool * 60 / 100, pool * 30 / 100;
    assert 0 <= first <= pool && 0 <= second <= pool - first;
  }

  lemma {:induction false} TotalOfPrefix(xs: seq<int>, k: nat)
    requires k <= |xs| && forall i :: 0 <= i < |xs| ==> xs[i] >= 0
    ensures 0 <= Total(xs[..k]) <= Total(xs)
    decreases |xs| - k
  {
    TotalNonNegative(xs[..k]);
    if k == |xs| {
      assert xs[..k] == xs;
    } else {
      TotalTake(xs, k);
      TotalOfPrefix(xs, k + 1);
    }
  }

  predicate MatchedUpTo(amounts: seq<int>, curve: Curve, k: nat)
    requires k <= |amounts| == |curve.expected|
    requires curve.tiedFirst == [] || |curve.tiedFirst| == |amounts|
  {
    forall j :: 0 <= j < k ==> amounts[j] >= 0 && Matches(amounts, curve, j)
  }

  /** On the fixed curves only the first three places pay, none of them more than the pool. */
  lemma FixedPlace(pool: nat, amounts: seq<int>, i: nat)
    requires i < |amounts| && PrizeCurve(pool, |amounts|, None).Ok?
    requires Matches(amounts, PrizeCurve(pool, |amounts|, None).value, i)
    ensures amounts[i] <= (if i < 3 then pool else 0)
  {}

  function PlacesWorth(pool: nat, k: nat): nat {
    if k == 0 then 0 else if k == 1 then pool else if k == 2 then pool + pool else pool + pool + pool
  }

  lemma {:induction false} FixedPrefixBound(pool: nat, amounts: seq<int>, k: nat)
    requires k <= |amounts| && PrizeCurve(pool, |amounts|, None).Ok?
    requires MatchedUpTo(amounts, PrizeCurve(pool, |amounts|, None).value, k)
    ensures Total(amounts[..k]) <= PlacesWorth(pool, k)
  {
    hide PrizeCurve, Matches;
    if k > 0 {
      FixedPrefixBound(pool, amounts, k - 1);
      TotalTake(amounts, k - 1);
      FixedPlace(pool, amounts, k - 1);
    } else {
      assert amounts[..k] == [];
    }
  }

  /** What has been matched so far never adds up to more than three pools. */
  lemma PrefixBound(pool: nat, amounts: seq<int>, bps: Option<seq<U32>>, k: nat)
    requires k <= |amounts| && PrizeCurve(pool, |amounts|, bps).Ok?
    requires MatchedUpTo(amounts, PrizeCurve(pool, |amounts|, bps).value, k)
    ensures Total(amounts[..k]) <= 3 * pool
  {
    match bps
    case Some(splits) =>
      var expected := PrizeCurve(pool, |amounts|, bps).value.expected;
      forall j | 0 <= j < k ensures amounts[j] == expected[j] {
        assert Matches(amounts, PrizeCurve(pool, |amounts|, bps).value, j);
      }
      assert amounts[..k] == expected[..k];
      SaturatingTotalExact(0, splits);
      BpsSplit(pool, splits);
      TotalOfPrefix(expected, k);
    case None => FixedPrefixBound(pool, amounts, k);
  }

  lemma {:induction false} MatchInRange(pool: nat, fee: nat, amounts: seq<int>, bps: Option<seq<U32>>, i: nat)
    requires i <= |amounts| && PrizeCurve(pool, |amounts|, bps).Ok?
    requires MatchedUpTo(amounts, PrizeCurve(pool, |amounts|, bps).value, i)
    requires fee + 3 * pool <= I128_MAX
    ensures var curve := PrizeCurve(pool, |amounts|, bps).value;
            MatchSum(amounts, curve, i, fee + Total(amounts[..i]))
              == if MatchFrom(amounts, curve, i).Pass? then Ok(fee + Total(amounts))
                 else Err(MatchFrom(amounts, curve, i).error)
    decreases |amounts| - i
  {
    hide PrizeCurve;
    var curve := PrizeCurve(pool, |amounts|, bps).value;
    if i == |amounts| {
      assert amounts[..i] == amounts;
    } else if amounts[i] >= 0 && Matches(amounts, curve, i) {
      TotalTake(amounts, i);
      assert MatchedUpTo(amounts, curve, i + 1);
      PrefixBound(pool, amounts, bps, i + 1);
      TotalNonNegative(amounts[..i + 1]);
      MatchInRange(pool, fee, amounts, bps, i + 1);
    }
  }

  lemma InRange(n: int)
    requires Fits(n)
    ensures CheckedI128(n) == Ok(n)
  {}

  lemma NothingMatchedYet(amounts: seq<int>, curve: Curve)
    requires |amounts| == |curve.expected| && (curve.tiedFirst == [] || |curve.tiedFirst| == |amounts|)
    ensures MatchedUpTo(amounts, curve, 0) && Total(amounts[..0]) == 0
  {}

  /** If 500 times the deposits fit, the check says what it means: no intermediate value leaves i128. */
  lemma WinnersInRange(total: nat, fee: I128, amounts: seq<int>, bps: Option<seq<U32>>)
    requires total * 500 <= I128_MAX && 0 <= fee <= total
    ensures CheckWinners(total, fee, amounts, bps) == Verdict(total, fee, amounts, bps)
  {
    hide CheckedCurve, PrizeCurve, MatchFrom, MatchSum, Matches, ValidSplits, CheckedI128, MatchedUpTo;
    var pool: nat := total - fee;
    InRange(pool);
    CurveInRange(pool, |amounts|, bps);
    if PrizeCurve(pool, |amounts|, bps).Ok? {
      NothingMatchedYet(amounts, PrizeCurve(pool, |amounts|, bps).value);
      hide Total;
      MatchInRange(pool, fee, amounts, bps, 0);
    }
  }

  // ---------- the loops of `settle_internal` ----------

  method ExpectedPayouts(pool: int, count: nat, bps: Option<seq<U32>>) returns (r: Result<Curve>)
    ensures r == CheckedCurve(pool, count, bps)
  {
    if bps.Some? {
      r := BasisPointCurve(pool, count, bps.value);
    } else if count == 1 {
      r := Ok(Curve([pool], []));
    } else if count == 2 {
      var scaled :- CheckedI128(pool * 70);
      var first := Quot(scaled, 100);
      var tiedFirst := Quot(pool, 2);
      r := Ok(Curve([first, pool - first], [tiedFirst, pool - tiedFirst]));
    } else if count >= 3 {
      var sixty :- CheckedI128(pool * 60);
      var p1 := Quot(sixty, 100);
      var thirty :- CheckedI128(pool * 30);
      var p2 := Quot(thirty, 100);
      var p3 := pool - p1 - p2;
      var tiedFirst := Quot(p1 + p2, 2);
      var tiedSecond := p1 + p2 - tiedFirst;
      var expected, tied := [p1, p2, p3], [tiedFirst, tiedSecond, p3];
      for i := 3 to count
        invariant expected == [p1, p2, p3] + seq(i - 3, _ => 0)
        invariant tied == [tiedFirst, tiedSecond, p3] + seq(i - 3, _ => 0)
      {
        expected, tied := expected + [0], tied + [0];
      }
      r := Ok(Curve(expected, tied));
    } else {
      r := Err(InvalidPrizeDistribution);
    }
  }

  method BasisPointCurve(pool: int, count: nat, splits: seq<U32>) returns (r: Result<Curve>)
    ensures r == CheckedCurve(pool, count, Some(splits))
  {
    if |splits| != count || splits == [] { return Err(InvalidPrizeDistribution); }
    var sum: U32 := 0;
    assert splits[0..] == splits && splits[|splits|..] == [];
    for i := 0 to |splits|
      invariant forall k :: 0 <= k < i ==> splits[k] <= FULL_BPS
      invariant SaturatingTotal(sum, splits[i..]) == SaturatingTotal(0, splits)
    {
      if splits[i] > FULL_BPS { return Err(InvalidPrizeDistribution); }
      assert splits[i..][1..] == splits[i + 1..];
      sum := if sum + splits[i] > U32_MAX then U32_MAX else sum + splits[i];
    }
    if sum != FULL_BPS { return Err(InvalidPrizeDistribution); }
    var expected :- BasisPointPayouts(pool, splits);
    r := Ok(Curve(expected, []));
  }

  method BasisPointPayouts(pool: int, splits: seq<U32>) returns (r: Result<seq<int>>)
    ensures r == CheckedBps(pool, splits, pool)
  {
    var expected: seq<int>, remaining := [], pool;
    ghost var whole := CheckedBps(pool, splits, pool);
    assert whole.Ok? ==> [] + whole.value == whole.value;
    assert splits[0..] == splits && splits[|splits|..] == [];
    for i := 0 to |splits|
      invariant After(expected, CheckedBps(pool, splits[i..], remaining)) == whole
    {
      assert splits[i..][1..] == splits[i + 1..];
      if i + 1 == |splits| {
        assert CheckedBps(pool, splits[i..], remaining) == Ok([remaining]);
        assert expected + [remaining] + [] == expected + [remaining];
        expected := expected + [remaining];
      } else {
        assert splits[i..][0] == splits[i];
        var product :- CheckedI128(Quot(pool, UNIT) * splits[i]);
        var share :- CheckedI128(Quot(product, FULL_BPS) * UNIT);
        remaining :- CheckedI128(remaining - share);
        ghost var rest := CheckedBps(pool, splits[i + 1..], remaining);
        assert rest.Ok? ==> expected + ([share] + rest.value) == (expected + [share]) + rest.value;
        expected := expected + [share];
      }
    }
    assert expected + [] == expected;
    r := Ok(expected);
  }

  /** A list already computed, followed by the outcome for the rest. */
  ghost function After(done: seq<int>, rest: Result<seq<int>>): Result<seq<int>> {
    if rest.Err? then rest else Ok(done + rest.value)
  }

  /** Checks the winners in order and adds their amounts to the fee. */
  method MatchWinners(amounts: seq<int>, curve: Curve, fee: int) returns (r: Result<int>)
    requires |amounts| == |curve.expected|
    requires curve.tiedFirst == [] || |curve.tiedFirst| == |amounts|
    ensures r == MatchSum(amounts, curve, 0, fee)
  {
    var usesTiedFirst := |amounts| >= 2 && curve.tiedFirst != []
                         && amounts[0] == curve.tiedFirst[0] && amounts[1] == curve.tiedFirst[1];
    var totalPayout := fee;
    for i := 0 to |amounts|
      invariant MatchSum(amounts, curve, i, totalPayout) == MatchSum(amounts, curve, 0, fee)
    {
      if amounts[i] < 0 { return Err(InvalidAmount); }
      var matchesStandard := amounts[i] == curve.expected[i];
      var matchesTiedFirst := usesTiedFirst && amounts[i] == curve.tiedFirst[i];
      if !matchesStandard && !matchesTiedFirst { return Err(InvalidPrizeDistribution); }
      totalPayout :- CheckedI128(totalPayout + amounts[i]);
    }
    r := Ok(totalPayout);
  }
}
