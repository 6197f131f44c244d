/** GraphQL query cost and depth: the analyzer, what it means, and three ways to measure depth. */
module QueryAnalysis {
  import opened Wrappers

  /** Argument values as the analyzer extracts them; variables and enums read as null. */
  datatype ArgValue = Num(x: real) | Text(s: string) | Bool(b: bool) | NullValue | Compound

  datatype Arg = Arg(name: string, value: ArgValue)

  /** A Leaf is a field without a selection set, a Field one with it. */
  datatype Selection =
    | Leaf(name: string, args: seq<Arg>)
    | Field(name: string, args: seq<Arg>, sub: seq<Selection>)
    | Inline(sels: seq<Selection>)
    | Spread(fragment: string)

  type Fragments = map<string, seq<Selection>>

  datatype Config = Config(fieldWeights: map<string, real>, defaultFieldWeight: real, listFieldWeight: real,
                           defaultPaginationMultiplier: real, maxPaginationMultiplier: real)

  // ---------- weights and multipliers ----------

  /** A repeated argument keeps its last value. */
  function ArgNamed(args: seq<Arg>, name: string): Option<ArgValue> {
    if args == [] then None
    else if args[|args| - 1].name == name then Some(args[|args| - 1].value)
    else ArgNamed(args[..|args| - 1], name)
  }

  predicate Truthy(v: Option<ArgValue>) {
    match v
    case None => false
    case Some(Num(x)) => x != 0.0
    case Some(Text(s)) => s != ""
    case Some(Bool(b)) => b
    case Some(NullValue) => false
    case Some(Compound) => true
  }

  function Multiplier(args: seq<Arg>, config: Config): real {
    var first, last, limit := ArgNamed(args, "first"), ArgNamed(args, "last"), ArgNamed(args, "limit");
    var chosen := if Truthy(first) then first else if Truthy(last) then last else if Truthy(limit) then limit
                  else ArgNamed(args, "take");
    match chosen
    case Some(Num(x)) =>
      var atLeastOne := if x >= 1.0 then x else 1.0;
      if atLeastOne <= config.maxPaginationMultiplier then atLeastOne else config.maxPaginationMultiplier
    case _ => config.defaultPaginationMultiplier
  }

  function Join(path: string, name: string): string {
    if path != "" then path + "." + name else name
  }

  function LastSegment(path: string): string {
    if path == "" || path[|path| - 1] == '.' then "" else LastSegment(path[..|path| - 1]) + [path[|path| - 1]]
  }

  const LIST_FIELDS: set<string> := {"users", "players", "leagues", "squads", "members", "createdLeagues", "wallet"}

  predicate IsFieldList(path: string) { LastSegment(path) in LIST_FIELDS }

  function FieldWeight(path: string, isList: bool, config: Config): real {
    if path in config.fieldWeights then config.fieldWeights[path]
    else if isList then config.listFieldWeight
    else config.defaultFieldWeight
  }

  // ---------- what they compute ----------

  const PAGINATION: seq<string> := ["first", "last", "limit", "take"]

  /** Absent, zero, empty, false or null. */
  ghost predicate Falsy(v: Option<ArgValue>) {
    v == None || v == Some(Num(0.0)) || v == Some(Text("")) || v == Some(Bool(false)) || v == Some(NullValue)
  }

  /** The value of the last argument of that name; `i` is its place, or -1. */
  lemma {:induction false} ArgNamedIs(args: seq<Arg>, name: string, i: int)
    requires -1 <= i < |args| && (i >= 0 ==> args[i].name == name)
    requires forall j :: i < j < |args| ==> args[j].name != name
    ensures ArgNamed(args, name) == if i >= 0 then Some(args[i].value) else None
  {
    if i < |args| - 1 { ArgNamedIs(args[..|args| - 1], name, i); }
  }

  lemma TruthyIs(v: Option<ArgValue>)
    ensures Truthy(v) <==> !Falsy(v)
  {}

  /** The argument that decides: the first that is not falsy, or the last of the four whatever it is. */
  ghost predicate Decides(args: seq<Arg>, k: nat) {
    && k < 4
    && (forall j :: 0 <= j < k ==> Falsy(ArgNamed(args, PAGINATION[j])))
    && (k < 3 ==> !Falsy(ArgNamed(args, PAGINATION[k])))
  }

  lemma SomeDecides(args: seq<Arg>) returns (k: nat)
    ensures Decides(args, k)
  {
    k := if !Falsy(ArgNamed(args, "first")) then 0 else if !Falsy(ArgNamed(args, "last")) then 1
         else if !Falsy(ArgNamed(args, "limit")) then 2 else 3;
    hide Falsy;
  }

  /** A number counts for itself between one and the maximum, which wins below one; anything else is the default. */
  lemma MultiplierIs(args: seq<Arg>, config: Config, k: nat)
    requires Decides(args, k)
    ensures var v, m, most := ArgNamed(args, PAGINATION[k]), Multiplier(args, config), config.maxPaginationMultiplier;
            if v.Some? && v.value.Num? then
              var x := v.value.x;
              && (1.0 <= x <= most ==> m == x) && (x < 1.0 <= most ==> m == 1.0)
              && (x > most >= 1.0 ==> m == most) && (most < 1.0 ==> m == most)
            else m == config.defaultPaginationMultiplier
  {
    TruthyIs(ArgNamed(args, PAGINATION[0]));
    TruthyIs(ArgNamed(args, PAGINATION[1]));
    TruthyIs(ArgNamed(args, PAGINATION[2]));
    hide Truthy, Falsy, ArgNamed;
    if k > 0 { assert !Truthy(ArgNamed(args, PAGINATION[0])); }
    if k > 1 { assert !Truthy(ArgNamed(args, PAGINATION[1])); }
    if k > 2 { assert !Truthy(ArgNamed(args, PAGINATION[2])); }
  }

  lemma {:induction false} LastSegmentOfJoin(path: string, name: string)
    requires '.' !in name
    ensures LastSegment(Join(path, name)) == name
  {
    var joined := Join(path, name);
    if name == "" {
      assert path != "" ==> joined[|joined| - 1] == '.';
    } else {
      var n := |name| - 1;
      assert name[n] in name && joined[|joined| - 1] == name[n];
      assert joined[..|joined| - 1] == Join(path, name[..n]);
      LastSegmentOfJoin(path, name[..n]);
    }
  }

  /** Lists are told by their name alone; a weight set for the path goes before those for lists and for the rest. */
  lemma WeightIs(path: string, name: string, config: Config)
    requires '.' !in name
    ensures IsFieldList(Join(path, name)) <==>
            name in {"users", "players", "leagues", "squads", "members", "createdLeagues", "wallet"}
    ensures var own := Join(path, name);
            FieldWeight(own, IsFieldList(own), config)
              == if own in config.fieldWeights then config.fieldWeights[own]
                 else if name in {"users", "players", "leagues", "squads", "members", "createdLeagues", "wallet"}
                 then config.listFieldWeight
                 else config.defaultFieldWeight
  {
    LastSegmentOfJoin(path, name);
  }

  // ---------- the analysis ----------

  datatype Analysis = Analysis(complexity: real, depth: nat, fieldCount: nat, listFieldCount: nat,
                               breakdown: map<string, real>)

  function Empty(depth: nat): Analysis { Analysis(0.0, depth, 0, 0, map[]) }

  function At(m: map<string, real>, k: string): real { if k in m then m[k] else 0.0 }

  function Merge(a: map<string, real>, b: map<string, real>): map<string, real> {
    map k | k in a.Keys + b.Keys :: At(a, k) + At(b, k)
  }

  function MaxNat(a: nat, b: nat): nat { if a >= b then a else b }

  function Combine(a: Analysis, b: Analysis): Analysis {
    Analysis(a.complexity + b.complexity, MaxNat(a.depth, b.depth), a.fieldCount + b.fieldCount,
             a.listFieldCount + b.listFieldCount, Merge(a.breakdown, b.breakdown))
  }

  lemma CombineAssociative(a: Analysis, b: Analysis, c: Analysis)
    ensures Combine(Combine(a, b), c) == Combine(a, Combine(b, c))
  {
    assert Merge(Merge(a.breakdown, b.breakdown), c.breakdown) == Merge(a.breakdown, Merge(b.breakdown, c.breakdown));
  }

  lemma CombineEmpty(a: Analysis, depth: nat)
    requires a.depth >= depth
    ensures Combine(Empty(depth), a) == a && Combine(a, Empty(depth)) == a
  {
    assert Merge(map[], a.breakdown) == a.breakdown && Merge(a.breakdown, map[]) == a.breakdown;
  }

  /**
   Spreads go to fragments of lower and lower rank. A fragment ranked at `bound` or above is never reached
   from a selection set of that bound, and may spread itself.
   */
  ghost predicate Ranked(sels: seq<Selection>, frags: Fragments, rank: string -> nat, bound: nat) {
    forall i :: 0 <= i < |sels| ==> RankedOne(sels[i], frags, rank, bound)
  }

  ghost predicate RankedOne(sel: Selection, frags: Fragments, rank: string -> nat, bound: nat) {
    match sel
    case Leaf(_, _) => true
    case Field(_, _, sub) => Ranked(sub, frags, rank, bound)
    case Inline(sels) => Ranked(sels, frags, rank, bound)
    case Spread(f) => f in frags ==> rank(f) < bound
  }

  ghost predicate Acyclic(frags: Fragments, rank: string -> nat, bound: nat) {
    forall f :: f in frags && rank(f) < bound ==> Ranked(frags[f], frags, rank, rank(f))
  }

  ghost predicate Fits(sels: seq<Selection>, frags: Fragments, rank: string -> nat, bound: nat) {
    Acyclic(frags, rank, bound) && Ranked(sels, frags, rank, bound)
  }

  function FieldAnalysis(name: string, args: seq<Arg>, child: Analysis, path: string, config: Config): Analysis {
    var own := Join(path, name);
    var isList, multiplier := IsFieldList(own), Multiplier(args, config);
    var cost := FieldWeight(own, isList, config) * multiplier + child.complexity * multiplier;
    Analysis(cost, child.depth, child.fieldCount + 1, child.listFieldCount + (if isList then 1 else 0),
             Merge(child.breakdown, map[own := cost]))
  }

  function Analyze(sels: seq<Selection>, frags: Fragments, ghost rank: string -> nat, ghost bound: nat,
                   config: Config, depth: nat, path: string): (r: Analysis)
    requires Fits(sels, frags, rank, bound)
    ensures r.depth >= depth
    decreases bound, sels, 1
  {
    if sels == [] then Empty(depth)
    else
      Combine(AnalyzeOne(sels[0], frags, rank, bound, config, depth, path),
              Analyze(sels[1..], frags, rank, bound, config, depth, path))
  }

  function AnalyzeOne(sel: Selection, frags: Fragments, ghost rank: string -> nat, ghost bound: nat,
                      config: Config, depth: nat, path: string): (r: Analysis)
    requires Acyclic(frags, rank, bound) && RankedOne(sel, frags, rank, bound)
    ensures r.depth >= depth
    decreases bound, sel, 0
  {
    match sel
    case Leaf(name, args) => FieldAnalysis(name, args, Empty(depth), path, config)
    case Field(name, args, sub) =>
      FieldAnalysis(name, args, Analyze(sub, frags, rank, bound, config, depth + 1, Join(path, name)), path, config)
    case Inline(sels) => Analyze(sels, frags, rank, bound, config, depth, path)
    case Spread(f) => if f in frags then Analyze(frags[f], frags, rank, rank(f), config, depth, path) else Empty(depth)
  }

  /** `analyzeSelectionSet`: the loop over selections with its running totals. */
  method AnalyzeSelectionSet(sels: seq<Selection>, frags: Fragments, ghost rank: string -> nat, ghost bound: nat,
                             config: Config, currentDepth: nat, parentPath: string) returns (r: Analysis)
    requires Fits(sels, frags, rank, bound)
    ensures r == Analyze(sels, frags, rank, bound, config, currentDepth, parentPath)
    decreases bound, sels, 1
  {
    r := Empty(currentDepth);
    ghost var all := Analyze(sels, frags, rank, bound, config, currentDepth, parentPath);
    CombineEmpty(all, currentDepth);
    assert sels[0..] == sels;
    hide FieldAnalysis, Combine, RankedOne;
    for i := 0 to |sels|
      invariant r.depth >= currentDepth
      invariant Combine(r, Analyze(sels[i..], frags, rank, bound, config, currentDepth, parentPath)) == all
    {
      assert sels[i..][1..] == sels[i + 1..];
      var one := AnalyzeSelection(sels[i], frags, rank, bound, config, currentDepth, parentPath);
      CombineAssociative(r, one, Analyze(sels[i + 1..], frags, rank, bound, config, currentDepth, parentPath));
      CombineDepth(r, one);
      r := Combine(r, one);
    }
    CombineEmpty(r, currentDepth);
  }

  lemma CombineDepth(a: Analysis, b: Analysis)
    ensures Combine(a, b).depth == MaxNat(a.depth, b.depth)
  {}

  method AnalyzeSelection(sel: Selection, frags: Fragments, ghost rank: string -> nat, ghost bound: nat,
                          config: Config, currentDepth: nat, parentPath: string) returns (r: Analysis)
    requires Acyclic(frags, rank, bound) && RankedOne(sel, frags, rank, bound)
    ensures r == AnalyzeOne(sel, frags, rank, bound, config, currentDepth, parentPath)
    decreases bound, sel, 0
  {
    match sel
    case Leaf(name, args) =>
      r := FieldAnalysis(name, args, Empty(currentDepth), parentPath, config);
    case Field(name, args, sub) =>
      var child := AnalyzeSelectionSet(sub, frags, rank, bound, config, currentDepth + 1, Join(parentPath, name));
      r := FieldAnalysis(name, args, child, parentPath, config);
    case Inline(inner) =>
      r := AnalyzeSelectionSet(inner, frags, rank, bound, config, currentDepth, parentPath);
    case Spread(f) =>
      r := Empty(currentDepth);
      if f in frags {
        r := AnalyzeSelectionSet(frags[f], frags, rank, rank(f), config, currentDepth, parentPath);
      }
  }

  // ---------- when the analysis ends ----------

  /** The analysis as it recurs, with at most `fuel` fragments open inside one another. */
  function AnalyzeWithin(sels: seq<Selection>, frags: Fragments, config: Config, depth: nat, path: string, fuel: nat)
    : Option<Analysis>
    decreases fuel, sels, 1
  {
    if sels == [] then Some(Empty(depth))
    else
      var first := AnalyzeOneWithin(sels[0], frags, config, depth, path, fuel);
      var rest := AnalyzeWithin(sels[1..], frags, config, depth, path, fuel);
      if first.None? || rest.None? then None else Some(Combine(first.value, rest.value))
  }

  function AnalyzeOneWithin(sel: Selection, frags: Fragments, config: Config, depth: nat, path: string, fuel: nat)
    : Option<Analysis>
    decreases fuel, sel, 0
  {
    match sel
    case Leaf(name, args) => Some(FieldAnalysis(name, args, Empty(depth), path, config))
    case Field(name, args, sub) =>
      var child := AnalyzeWithin(sub, frags, config, depth + 1, Join(path, name), fuel);
      if child.None? then None else Some(FieldAnalysis(name, args, child.value, path, config))
    case Inline(sels) => AnalyzeWithin(sels, frags, config, depth, path, fuel)
    case Spread(f) =>
      if f !in frags then Some(Empty(depth))
      else if fuel == 0 then None
      else AnalyzeWithin(frags[f], frags, config, depth, path, fuel - 1)
  }

  /** It ends within the fuel; where and how fields are weighed makes no difference. */
  ghost predicate Ends(sels: seq<Selection>, frags: Fragments, fuel: nat)
    decreases fuel, sels, 1
  {
    forall i :: 0 <= i < |sels| ==> EndsOne(sels[i], frags, fuel)
  }

  ghost predicate EndsOne(sel: Selection, frags: Fragments, fuel: nat)
    decreases fuel, sel, 0
  {
    match sel
    case Leaf(_, _) => true
    case Field(_, _, sub) => Ends(sub, frags, fuel)
    case Inline(sels) => Ends(sels, frags, fuel)
    case Spread(f) => f in frags ==> fuel > 0 && Ends(frags[f], frags, fuel - 1)
  }

  lemma {:induction false} WithinIsEnds(sels: seq<Selection>, frags: Fragments, config: Config, depth: nat,
                                        path: string, fuel: nat)
    ensures AnalyzeWithin(sels, frags, config, depth, path, fuel).Some? <==> Ends(sels, frags, fuel)
    decreases fuel, sels, 1
  {
    hide FieldAnalysis, Combine;
    if sels != [] {
      WithinIsEndsOne(sels[0], frags, config, depth, path, fuel);
      WithinIsEnds(sels[1..], frags, config, depth, path, fuel);
      EndsFirst(sels, frags, fuel);
      hide Ends, EndsOne;
    }
  }

  lemma EndsFirst(sels: seq<Selection>, frags: Fragments, fuel: nat)
    requires sels != []
    ensures Ends(sels, frags, fuel) <==> EndsOne(sels[0], frags, fuel) && Ends(sels[1..], frags, fuel)
  {
    hide EndsOne;
    if EndsOne(sels[0], frags, fuel) && Ends(sels[1..], frags, fuel) {
      forall i | 0 <= i < |sels| ensures EndsOne(sels[i], frags, fuel) {
        if i > 0 { assert sels[i] == sels[1..][i - 1]; }
      }
    }
  }

  lemma {:induction false} WithinIsEndsOne(sel: Selection, frags: Fragments, config: Config, depth: nat, path: string,
                                           fuel: nat)
    ensures AnalyzeOneWithin(sel, frags, config, depth, path, fuel).Some? <==> EndsOne(sel, frags, fuel)
    decreases fuel, sel, 0
  {
    hide FieldAnalysis, Combine;
    match sel
    case Leaf(_, _) =>
    case Field(name, _, sub) => WithinIsEnds(sub, frags, config, depth + 1, Join(path, name), fuel);
    case Inline(sels) => WithinIsEnds(sels, frags, config, depth, path, fuel);
    case Spread(f) => if f in frags && fuel > 0 { WithinIsEnds(frags[f], frags, config, depth, path, fuel - 1); }
  }

  /** Fuel up to the bound suffices, and what comes out is the analysis. */
  lemma {:induction false} RankedEnds(sels: seq<Selection>, frags: Fragments, rank: string -> nat, bound: nat,
                                      config: Config, depth: nat, path: string, fuel: nat)
    requires Fits(sels, frags, rank, bound) && fuel >= bound
    ensures AnalyzeWithin(sels, frags, config, depth, path, fuel)
            == Some(Analyze(sels, frags, rank, bound, config, depth, path))
    decreases bound, sels, 1
  {
    hide FieldAnalysis, Combine;
    if sels != [] {
      RankedEndsOne(sels[0], frags, rank, bound, config, depth, path, fuel);
      RankedEnds(sels[1..], frags, rank, bound, config, depth, path, fuel);
    }
  }

  lemma {:induction false} RankedEndsOne(sel: Selection, frags: Fragments, rank: string -> nat, bound: nat,
                                         config: Config, depth: nat, path: string, fuel: nat)
    requires Acyclic(frags, rank, bound) && RankedOne(sel, frags, rank, bound) && fuel >= bound
    ensures AnalyzeOneWithin(sel, frags, config, depth, path, fuel)
            == Some(AnalyzeOne(sel, frags, rank, bound, config, depth, path))
    decreases bound, sel, 0
  {
    hide FieldAnalysis, Combine;
    match sel
    case Leaf(_, _) =>
    case Field(name, _, sub) => RankedEnds(sub, frags, rank, bound, config, depth + 1, Join(path, name), fuel);
    case Inline(sels) => RankedEnds(sels, frags, rank, bound, config, depth, path, fuel);
    case Spread(f) => if f in frags { RankedEnds(frags[f], frags, rank, rank(f), config, depth, path, fuel - 1); }
  }

  /** The least fuel on which a fragment ends, if that is below `fuel`. */
  ghost function EndRank(frags: Fragments, f: string, fuel: nat, n: nat): (r: nat)
    requires f in frags && n <= fuel
    ensures r <= fuel
    ensures r < fuel ==> Ends(frags[f], frags, r)
    ensures forall k :: n <= k < fuel && Ends(frags[f], frags, k) ==> r <= k
    decreases fuel - n
  {
    if n == fuel then fuel else if Ends(frags[f], frags, n) then n else EndRank(frags, f, fuel, n + 1)
  }

  ghost function EndRanks(frags: Fragments, fuel: nat): string -> nat {
    f => if f in frags then EndRank(frags, f, fuel, 0) else 0
  }

  lemma {:induction false} EndsRanked(sels: seq<Selection>, frags: Fragments, fuel: nat, bound: nat)
    requires bound <= fuel && Ends(sels, frags, bound)
    ensures Ranked(sels, frags, EndRanks(frags, fuel), bound)
    decreases sels
  {
    var rank := EndRanks(frags, fuel);
    forall i | 0 <= i < |sels| ensures RankedOne(sels[i], frags, rank, bound) {
      assert EndsOne(sels[i], frags, bound);
      match sels[i]
      case Field(_, _, sub) => EndsRanked(sub, frags, fuel, bound);
      case Inline(inner) => EndsRanked(inner, frags, fuel, bound);
      case Spread(f) => if f in frags { assert Ends(frags[f], frags, bound - 1); }
      case Leaf(_, _) =>
    }
  }

  /** The analysis ends, on some amount of fuel, iff the fragments it reaches can be ranked. */
  lemma AnalysisEndsIff(sels: seq<Selection>, frags: Fragments, config: Config, depth: nat, path: string)
    ensures (exists fuel: nat :: AnalyzeWithin(sels, frags, config, depth, path, fuel).Some?)
            <==> exists rank: string -> nat, bound: nat :: Fits(sels, frags, rank, bound)
  {
    if rank: string -> nat, bound: nat :| Fits(sels, frags, rank, bound) {
      RankedEnds(sels, frags, rank, bound, config, depth, path, bound);
    }
    if fuel: nat :| AnalyzeWithin(sels, frags, config, depth, path, fuel).Some? {
      WithinIsEnds(sels, frags, config, depth, path, fuel);
      EndsRanked(sels, frags, fuel, fuel);
      var rank := EndRanks(frags, fuel);
      forall f | f in frags && rank(f) < fuel ensures Ranked(frags[f], frags, rank, rank(f)) {
        EndsRanked(frags[f], frags, fuel, rank(f));
      }
      assert Fits(sels, frags, rank, fuel);
    }
  }

  /** A fragment that spreads itself keeps the analyzer going for ever, once it is reached. */
  lemma {:induction false} CycleNeverEnds(f: string, config: Config, depth: nat, path: string, fuel: nat)
    ensures AnalyzeWithin([Spread(f)], map[f := [Spread(f)]], config, depth, path, fuel) == None
  {
    assert AnalyzeOneWithin(Spread(f), map[f := [Spread(f)]], config, depth, path, fuel) == None by {
      if fuel > 0 { CycleNeverEnds(f, config, depth, path, fuel - 1); }
    }
  }

  // ---------- inlining fragments ----------

  /** The selection set with every spread and every inline fragment replaced by what it stands for. */
  function Expand(sels: seq<Selection>, frags: Fragments, ghost rank: string -> nat, ghost bound: nat): seq<Selection>
    requires Fits(sels, frags, rank, bound)
    decreases bound, sels, 1
  {
    if sels == [] then [] else ExpandOne(sels[0], frags, rank, bound) + Expand(sels[1..], frags, rank, bound)
  }

  function ExpandOne(sel: Selection, frags: Fragments, ghost rank: string -> nat, ghost bound: nat): seq<Selection>
    requires Acyclic(frags, rank, bound) && RankedOne(sel, frags, rank, bound)
    decreases bound, sel, 0
  {
    match sel
    case Leaf(name, args) => [sel]
    case Field(name, args, sub) => [Field(name, args, Expand(sub, frags, rank, bound))]
    case Inline(sels) => Expand(sels, frags, rank, bound)
    case Spread(f) => if f in frags then Expand(frags[f], frags, rank, rank(f)) else []
  }

  predicate FieldsOnly(sels: seq<Selection>) {
    forall i :: 0 <= i < |sels| ==> (sels[i].Leaf? || sels[i].Field?) && (sels[i].Field? ==> FieldsOnly(sels[i].sub))
  }

  /** Without spreads, any bound and any fragments will do. */
  lemma {:induction false} FieldsOnlyRanked(sels: seq<Selection>, rank: string -> nat)
    requires FieldsOnly(sels)
    ensures Fits(sels, map[], rank, 0)
    decreases sels
  {
    forall i | 0 <= i < |sels| ensures RankedOne(sels[i], map[], rank, 0) {
      if sels[i].Field? { FieldsOnlyRanked(sels[i].sub, rank); }
    }
  }

  lemma {:induction false} ExpandFieldsOnly(sels: seq<Selection>, frags: Fragments, rank: string -> nat, bound: nat)
    requires Fits(sels, frags, rank, bound)
    ensures FieldsOnly(Expand(sels, frags, rank, bound))
    decreases bound, sels
  {
    if sels != [] {
      ExpandFieldsOnly(sels[1..], frags, rank, bound);
      assert RankedOne(sels[0], frags, rank, bound);
      match sels[0]
      case Leaf(_, _) =>
      case Field(_, _, sub) => ExpandFieldsOnly(sub, frags, rank, bound);
      case Inline(inner) => ExpandFieldsOnly(inner, frags, rank, bound);
      case Spread(f) => if f in frags { ExpandFieldsOnly(frags[f], frags, rank, rank(f)); }
    }
  }

  ghost const NO_RANK: string -> nat := _ => 0

  /** The analysis of a document that needs no fragments. */
  function Plain(sels: seq<Selection>, config: Config, depth: nat, path: string): Analysis
    requires FieldsOnly(sels)
  {
    FieldsOnlyRanked(sels, NO_RANK);
    Analyze(sels, map[], NO_RANK, 0, config, depth, path)
  }

  lemma {:induction false} PlainAppend(a: seq<Selection>, b: seq<Selection>, config: Config, depth: nat, path: string)
    requires FieldsOnly(a) && FieldsOnly(b)
    ensures FieldsOnly(a + b)
    ensures Plain(a + b, config, depth, path) == Combine(Plain(a, config, depth, path), Plain(b, config, depth, path))
  {
    FieldsOnlyRanked(a, NO_RANK);
    FieldsOnlyRanked(b, NO_RANK);
    FieldsOnlyRanked(a + b, NO_RANK);
    if a == [] {
      assert a + b == b;
      CombineEmpty(Plain(b, config, depth, path), depth);
    } else {
      assert (a + b)[1..] == a[1..] + b && (a + b)[0] == a[0];
      PlainAppend(a[1..], b, config, depth, path);
      hide Combine;
      CombineAssociative(AnalyzeOne(a[0], map[], NO_RANK, 0, config, depth, path),
                         Plain(a[1..], config, depth, path), Plain(b, config, depth, path));
    }
  }

  /** Inlining every fragment leaves the whole analysis as it was. */
  lemma {:induction false} InliningPreserves(sels: seq<Selection>, frags: Fragments, rank: string -> nat, bound: nat,
                                             config: Config, depth: nat, path: string)
    requires Fits(sels, frags, rank, bound)
    ensures FieldsOnly(Expand(sels, frags, rank, bound))
    ensures Plain(Expand(sels, frags, rank, bound), config, depth, path)
            == Analyze(sels, frags, rank, bound, config, depth, path)
    decreases bound, sels, 1
  {
    ExpandFieldsOnly(sels, frags, rank, bound);
    if sels != [] {
      hide Combine;
      InliningPreservesOne(sels[0], frags, rank, bound, config, depth, path);
      InliningPreserves(sels[1..], frags, rank, bound, config, depth, path);
      PlainAppend(ExpandOne(sels[0], frags, rank, bound), Expand(sels[1..], frags, rank, bound), config, depth, path);
    }
  }

  lemma {:induction false} InliningPreservesOne(sel: Selection, frags: Fragments, rank: string -> nat, bound: nat,
                                                config: Config, depth: nat, path: string)
    requires Acyclic(frags, rank, bound) && RankedOne(sel, frags, rank, bound)
    ensures FieldsOnly(ExpandOne(sel, frags, rank, bound))
    ensures Plain(ExpandOne(sel, frags, rank, bound), config, depth, path)
            == AnalyzeOne(sel, frags, rank, bound, config, depth, path)
    decreases bound, sel, 0
  {
    match sel
    case Leaf(name, args) => PlainSingle(sel, config, depth, path);
    case Field(name, args, sub) =>
      InliningPreserves(sub, frags, rank, bound, config, depth + 1, Join(path, name));
      PlainSingle(ExpandOne(sel, frags, rank, bound)[0], config, depth, path);
    case Inline(inner) => InliningPreserves(inner, frags, rank, bound, config, depth, path);
    case Spread(f) => if f in frags { InliningPreserves(frags[f], frags, rank, rank(f), config, depth, path); }
  }

  lemma PlainSingle(sel: Selection, config: Config, depth: nat, path: string)
    requires FieldsOnly([sel])
    ensures Plain([sel], config, depth, path)
              == FieldAnalysis(sel.name, sel.args,
                               if sel.Leaf? then Empty(depth)
                               else Plain(sel.sub, config, depth + 1, Join(path, sel.name)),
                               path, config)
  {
    assert sel == [sel][0];
    FieldsOnlyRanked([sel], NO_RANK);
    var none: seq<Selection>, one := [sel][1..], AnalyzeOne(sel, map[], NO_RANK, 0, config, depth, path);
    assert none == [] && Analyze(none, map[], NO_RANK, 0, config, depth, path) == Empty(depth);
    CombineEmpty(one, depth);
    assert Plain([sel], config, depth, path) == Combine(one, Empty(depth));
  }

  // ---------- the closed form ----------

  /** One field as it occurs in a document: its own weight, and the multipliers from the root down to it. */
  datatype Occurrence = Occurrence(path: string, weight: real, multipliers: seq<real>)

  function Product(xs: seq<real>): real {
    if xs == [] then 1.0 else Product(xs[..|xs| - 1]) * xs[|xs| - 1]
  }

  function Cost(os: seq<Occurrence>): real {
    if os == [] then 0.0 else os[0].weight * Product(os[0].multipliers) + Cost(os[1..])
  }

  /** Every field occurrence below `path`, fragments included. */
  function Occurrences(sels: seq<Selection>, frags: Fragments, ghost rank: string -> nat, ghost bound: nat,
                       config: Config, path: string, above: seq<real>): seq<Occurrence>
    requires Fits(sels, frags, rank, bound)
    decreases bound, sels, 1
  {
    if sels == [] then []
    else
      OccurrencesOne(sels[0], frags, rank, bound, config, path, above)
      + Occurrences(sels[1..], frags, rank, bound, config, path, above)
  }

  function OccurrencesOne(sel: Selection, frags: Fragments, ghost rank: string -> nat, ghost bound: nat,
                          config: Config, path: string, above: seq<real>): seq<Occurrence>
    requires Acyclic(frags, rank, bound) && RankedOne(sel, frags, rank, bound)
    decreases bound, sel, 0
  {
    match sel
    case Leaf(name, args) => [Occur(name, args, config, path, above)]
    case Field(name, args, sub) =>
      [Occur(name, args, config, path, above)]
      + Occurrences(sub, frags, rank, bound, config, Join(path, name), above + [Multiplier(args, config)])
    case Inline(sels) => Occurrences(sels, frags, rank, bound, config, path, above)
    case Spread(f) => if f in frags then Occurrences(frags[f], frags, rank, rank(f), config, path, above) else []
  }

  function Occur(name: string, args: seq<Arg>, config: Config, path: string, above: seq<real>): Occurrence {
    var own := Join(path, name);
    Occurrence(own, FieldWeight(own, IsFieldList(own), config), above + [Multiplier(args, config)])
  }

  lemma {:induction false} CostAppend(a: seq<Occurrence>, b: seq<Occurrence>)
    ensures Cost(a + b) == Cost(a) + Cost(b)
  {
    if a == [] {
      assert a + b == b;
    } else {
      assert (a + b)[1..] == a[1..] + b;
      CostAppend(a[1..], b);
    }
  }

  lemma NothingCosts()
    ensures Cost([]) == 0.0
  {}

  lemma DistributeSum(p: real, a: real, b: real)
    ensures p * (a + b) == p * a + p * b
  {}

  lemma Distribute(outer: real, m: real, weight: real, below: real)
    ensures weight * (outer * m) + outer * m * below == outer * (weight * m + below * m)
  {
    assert weight * (outer * m) == outer * (weight * m);
    assert outer * m * below == outer * (below * m);
    assert outer * (weight * m) + outer * (below * m) == outer * (weight * m + below * m);
  }

  lemma CombineParts(a: Analysis, b: Analysis)
    ensures var c := Combine(a, b);
            c.complexity == a.complexity + b.complexity && c.fieldCount == a.fieldCount + b.fieldCount
            && c.depth == MaxNat(a.depth, b.depth)
  {}

  lemma FieldParts(name: string, args: seq<Arg>, child: Analysis, path: string, config: Config)
    ensures var r, own, m := FieldAnalysis(name, args, child, path, config), Join(path, name), Multiplier(args, config);
            && r.complexity == FieldWeight(own, IsFieldList(own), config) * m + child.complexity * m
            && r.fieldCount == child.fieldCount + 1 && r.depth == child.depth
  {
    hide FieldWeight, Multiplier, IsFieldList, Merge;
  }

  /** Below any path, occurrences cost what the analyzer says, times the multipliers above. */
  lemma {:induction false} ClosedFormBelow(sels: seq<Selection>, frags: Fragments, rank: string -> nat, bound: nat,
                                           config: Config, depth: nat, path: string, above: seq<real>)
    requires Fits(sels, frags, rank, bound)
    ensures var os, a := Occurrences(sels, frags, rank, bound, config, path, above),
                         Analyze(sels, frags, rank, bound, config, depth, path);
            Cost(os) == Product(above) * a.complexity && |os| == a.fieldCount
    decreases bound, sels, 1
  {
    NothingCosts();
    hide Combine, FieldAnalysis, Multiplier, FieldWeight, Cost, Product;
    if sels != [] {
      var first, rest := OccurrencesOne(sels[0], frags, rank, bound, config, path, above),
                         Occurrences(sels[1..], frags, rank, bound, config, path, above);
      ClosedFormOne(sels[0], frags, rank, bound, config, depth, path, above);
      ClosedFormBelow(sels[1..], frags, rank, bound, config, depth, path, above);
      CostAppend(first, rest);
      var a, b := AnalyzeOne(sels[0], frags, rank, bound, config, depth, path),
          Analyze(sels[1..], frags, rank, bound, config, depth, path);
      CombineParts(a, b);
      DistributeSum(Product(above), a.complexity, b.complexity);
    }
  }

  lemma {:induction false} ClosedFormOne(sel: Selection, frags: Fragments, rank: string -> nat, bound: nat,
                                         config: Config, depth: nat, path: string, above: seq<real>)
    requires Acyclic(frags, rank, bound) && RankedOne(sel, frags, rank, bound)
    ensures var os, a := OccurrencesOne(sel, frags, rank, bound, config, path, above),
                         AnalyzeOne(sel, frags, rank, bound, config, depth, path);
            Cost(os) == Product(above) * a.complexity && |os| == a.fieldCount
    decreases bound, sel, 0
  {
    NothingCosts();
    hide FieldAnalysis, Multiplier, FieldWeight, Cost, Product, Occur, Analyze, Occurrences, IsFieldList, Join;
    match sel
    case Leaf(name, args) =>
      FieldParts(name, args, Empty(depth), path, config);
      assert [Occur(name, args, config, path, above)] + [] == [Occur(name, args, config, path, above)];
      FieldCost(name, args, config, path, above, [], 0.0);
    case Field(name, args, sub) =>
      var m := Multiplier(args, config);
      ClosedFormBelow(sub, frags, rank, bound, config, depth + 1, Join(path, name), above + [m]);
      FieldParts(name, args, Analyze(sub, frags, rank, bound, config, depth + 1, Join(path, name)), path, config);
      FieldCost(name, args, config, path, above,
                Occurrences(sub, frags, rank, bound, config, Join(path, name), above + [m]),
                Analyze(sub, frags, rank, bound, config, depth + 1, Join(path, name)).complexity);
    case Inline(inner) => ClosedFormBelow(inner, frags, rank, bound, config, depth, path, above);
    case Spread(f) => if f in frags { ClosedFormBelow(frags[f], frags, rank, rank(f), config, depth, path, above); }
  }

  /** One field and everything below it. */
  lemma FieldCost(name: string, args: seq<Arg>, config: Config, path: string, above: seq<real>,
                  below: seq<Occurrence>, complexity: real)
    requires Cost(below) == Product(above + [Multiplier(args, config)]) * complexity
    ensures var own, m := Join(path, name), Multiplier(args, config);
            Cost([Occur(name, args, config, path, above)] + below)
              == Product(above) * (FieldWeight(own, IsFieldList(own), config) * m + complexity * m)
  {
    var o, m := Occur(name, args, config, path, above), Multiplier(args, config);
    assert (above + [m])[..|above|] == above;
    assert ([o] + below)[1..] == below;
    assert Product(above + [m]) == Product(above) * m;
    Distribute(Product(above), m, o.weight, complexity);
  }

  /** The complexity of a document: over all field occurrences, weight times every multiplier on the path. */
  lemma ClosedForm(sels: seq<Selection>, frags: Fragments, rank: string -> nat, bound: nat, config: Config)
    requires Fits(sels, frags, rank, bound)
    ensures var os, a :=
            Occurrences(sels, frags, rank, bound, config, "", []), Analyze(sels, frags, rank, bound, config, 0, "");
            a.complexity == Cost(os) && a.fieldCount == |os|
  {
    ClosedFormBelow(sels, frags, rank, bound, config, 0, "", []);
  }

  /** A document of one field that asks for `x` items. */
  lemma OneFieldCosts(name: string, x: real, frags: Fragments, rank: string -> nat, bound: nat, config: Config)
    requires '.' !in name && 1.0 <= x <= config.maxPaginationMultiplier && name !in config.fieldWeights
    requires Fits([Leaf(name, [Arg("first", Num(x))])], frags, rank, bound)
    ensures Analyze([Leaf(name, [Arg("first", Num(x))])], frags, rank, bound, config, 0, "").complexity
            == x * (if name in {"users", "players", "leagues", "squads", "members", "createdLeagues", "wallet"}
                    then config.listFieldWeight else config.defaultFieldWeight)
  {
    var args := [Arg("first", Num(x))];
    var sels, none: seq<Selection> := [Leaf(name, args)], [Leaf(name, args)][1..];
    ArgNamedIs(args, "first", 0);
    MultiplierIs(args, config, 0);
    WeightIs("", name, config);
    assert none == [] && Analyze(none, frags, rank, bound, config, 0, "") == Empty(0);
    CombineParts(AnalyzeOne(sels[0], frags, rank, bound, config, 0, ""), Empty(0));
    FieldParts(name, args, Empty(0), "", config);
    hide Multiplier, FieldWeight, IsFieldList, FieldAnalysis, Combine;
  }

  // ---------- lists and breakdown ----------

  function ListCount(os: seq<Occurrence>): nat {
    if os == [] then 0 else (if IsFieldList(os[0].path) then 1 else 0) + ListCount(os[1..])
  }

  ghost function Paths(os: seq<Occurrence>): set<string> {
    set i | 0 <= i < |os| :: os[i].path
  }

  lemma {:induction false} ListCountAppend(a: seq<Occurrence>, b: seq<Occurrence>)
    ensures ListCount(a + b) == ListCount(a) + ListCount(b)
    ensures Paths(a + b) == Paths(a) + Paths(b)
  {
    if a == [] {
      assert a + b == b;
    } else {
      assert (a + b)[1..] == a[1..] + b;
      ListCountAppend(a[1..], b);
    }
    forall p | p in Paths(a) + Paths(b) ensures p in Paths(a + b) {
      if p in Paths(a) {
        var i :| 0 <= i < |a| && a[i].path == p;
        assert (a + b)[i].path == p;
      } else {
        var i :| 0 <= i < |b| && b[i].path == p;
        assert (a + b)[|a| + i].path == p;
      }
    }
  }

  lemma ListCountOne(o: Occurrence)
    ensures ListCount([o]) == (if IsFieldList(o.path) then 1 else 0) && Paths([o]) == {o.path}
  {
    var none: seq<Occurrence> := [o][1..];
    assert none == [] && ListCount(none) == 0;
    assert [o][0].path == o.path;
  }

  lemma FieldTallies(name: string, args: seq<Arg>, child: Analysis, path: string, config: Config)
    ensures var r, own := FieldAnalysis(name, args, child, path, config), Join(path, name);
            && r.listFieldCount == child.listFieldCount + (if IsFieldList(own) then 1 else 0)
            && r.breakdown.Keys == child.breakdown.Keys + {own}
            && (forall k :: At(r.breakdown, k) == At(child.breakdown, k) + (if k == own then r.complexity else 0.0))
  {}

  lemma CombineTallies(a: Analysis, b: Analysis)
    ensures var c := Combine(a, b);
            && c.listFieldCount == a.listFieldCount + b.listFieldCount
            && c.breakdown.Keys == a.breakdown.Keys + b.breakdown.Keys
            && (forall k :: At(c.breakdown, k) == At(a.breakdown, k) + At(b.breakdown, k))
  {}

  /** List fields are counted by occurrence, and the breakdown is about the paths that occur. */
  lemma {:induction false} Tallies(sels: seq<Selection>, frags: Fragments, rank: string -> nat, bound: nat,
                                   config: Config, depth: nat, path: string, above: seq<real>)
    requires Fits(sels, frags, rank, bound)
    ensures var os, a := Occurrences(sels, frags, rank, bound, config, path, above),
                         Analyze(sels, frags, rank, bound, config, depth, path);
            a.listFieldCount == ListCount(os) && a.breakdown.Keys == Paths(os)
    decreases bound, sels, 1
  {
    hide Combine, FieldAnalysis, ListCount, Paths;
    if sels == [] {
      NothingListed();
    } else {
      TalliesOne(sels[0], frags, rank, bound, config, depth, path, above);
      Tallies(sels[1..], frags, rank, bound, config, depth, path, above);
      ListCountAppend(OccurrencesOne(sels[0], frags, rank, bound, config, path, above),
                      Occurrences(sels[1..], frags, rank, bound, config, path, above));
      CombineTallies(AnalyzeOne(sels[0], frags, rank, bound, config, depth, path),
                     Analyze(sels[1..], frags, rank, bound, config, depth, path));
    }
  }

  lemma NothingListed()
    ensures ListCount([]) == 0 && Paths([]) == {}
  {}

  lemma {:induction false} TalliesOne(sel: Selection, frags: Fragments, rank: string -> nat, bound: nat,
                                      config: Config, depth: nat, path: string, above: seq<real>)
    requires Acyclic(frags, rank, bound) && RankedOne(sel, frags, rank, bound)
    ensures var os, a := OccurrencesOne(sel, frags, rank, bound, config, path, above),
                         AnalyzeOne(sel, frags, rank, bound, config, depth, path);
            a.listFieldCount == ListCount(os) && a.breakdown.Keys == Paths(os)
    decreases bound, sel, 0
  {
    NothingListed();
    hide Combine, FieldAnalysis, ListCount, Paths, Multiplier, FieldWeight, IsFieldList, Join;
    match sel
    case Leaf(name, args) =>
      FieldTallies(name, args, Empty(depth), path, config);
      ListCountOne(Occur(name, args, config, path, above));
    case Field(name, args, sub) =>
      var below := above + [Multiplier(args, config)];
      Tallies(sub, frags, rank, bound, config, depth + 1, Join(path, name), below);
      FieldTallies(name, args, Analyze(sub, frags, rank, bound, config, depth + 1, Join(path, name)), path, config);
      ListCountOne(Occur(name, args, config, path, above));
      ListCountAppend([Occur(name, args, config, path, above)],
                      Occurrences(sub, frags, rank, bound, config, Join(path, name), below));
    case Inline(inner) => Tallies(inner, frags, rank, bound, config, depth, path, above);
    case Spread(f) => if f in frags { Tallies(frags[f], frags, rank, rank(f), config, depth, path, above); }
  }

  /** What the fields at one path cost, each with all that is below it but without what is above. */
  ghost function CostAt(sels: seq<Selection>, frags: Fragments, rank: string -> nat, bound: nat,
                        config: Config, path: string, at: string): real
    requires Fits(sels, frags, rank, bound)
    decreases bound, sels, 1
  {
    if sels == [] then 0.0
    else
      CostAtOne(sels[0], frags, rank, bound, config, path, at)
      + CostAt(sels[1..], frags, rank, bound, config, path, at)
  }

  ghost function CostAtOne(sel: Selection, frags: Fragments, rank: string -> nat, bound: nat,
                           config: Config, path: string, at: string): real
    requires Acyclic(frags, rank, bound) && RankedOne(sel, frags, rank, bound)
    decreases bound, sel, 0
  {
    match sel
    case Leaf(name, _) =>
      if Join(path, name) == at then Cost(OccurrencesOne(sel, frags, rank, bound, config, path, [])) else 0.0
    case Field(name, _, sub) =>
      CostAt(sub, frags, rank, bound, config, Join(path, name), at)
      + (if Join(path, name) == at then Cost(OccurrencesOne(sel, frags, rank, bound, config, path, [])) else 0.0)
    case Inline(sels) => CostAt(sels, frags, rank, bound, config, path, at)
    case Spread(f) => if f in frags then CostAt(frags[f], frags, rank, rank(f), config, path, at) else 0.0
  }

  /** The breakdown gives each path what its fields cost. */
  lemma {:induction false} BreakdownIs(sels: seq<Selection>, frags: Fragments, rank: string -> nat, bound: nat,
                                       config: Config, depth: nat, path: string, at: string)
    requires Fits(sels, frags, rank, bound)
    ensures At(Analyze(sels, frags, rank, bound, config, depth, path).breakdown, at)
            == CostAt(sels, frags, rank, bound, config, path, at)
    decreases bound, sels, 1
  {
    hide Combine, FieldAnalysis;
    if sels != [] {
      BreakdownIsOne(sels[0], frags, rank, bound, config, depth, path, at);
      BreakdownIs(sels[1..], frags, rank, bound, config, depth, path, at);
      CombineTallies(AnalyzeOne(sels[0], frags, rank, bound, config, depth, path),
                     Analyze(sels[1..], frags, rank, bound, config, depth, path));
    }
  }

  lemma {:induction false} BreakdownIsOne(sel: Selection, frags: Fragments, rank: string -> nat, bound: nat,
                                          config: Config, depth: nat, path: string, at: string)
    requires Acyclic(frags, rank, bound) && RankedOne(sel, frags, rank, bound)
    ensures At(AnalyzeOne(sel, frags, rank, bound, config, depth, path).breakdown, at)
            == CostAtOne(sel, frags, rank, bound, config, path, at)
    decreases bound, sel, 0
  {
    ClosedFormOne(sel, frags, rank, bound, config, depth, path, []);
    assert Product([]) == 1.0;
    hide Combine, FieldAnalysis, Cost, Product, OccurrencesOne, Join;
    match sel
    case Leaf(name, args) => FieldTallies(name, args, Empty(depth), path, config);
    case Field(name, args, sub) =>
      BreakdownIs(sub, frags, rank, bound, config, depth + 1, Join(path, name), at);
      FieldTallies(name, args, Analyze(sub, frags, rank, bound, config, depth + 1, Join(path, name)), path, config);
    case Inline(inner) => BreakdownIs(inner, frags, rank, bound, config, depth, path, at);
    case Spread(f) => if f in frags { BreakdownIs(frags[f], frags, rank, rank(f), config, depth, path, at); }
  }

  // ---------- three ways to measure depth ----------

  /** Nesting of selection sets below fields; spreads are not followed. */
  function Depth(sels: seq<Selection>, current: nat): (d: nat)
    ensures d >= current
    decreases sels, 1
  {
    if sels == [] then current else MaxNat(DepthOne(sels[0], current), Depth(sels[1..], current))
  }

  function DepthOne(sel: Selection, current: nat): (d: nat)
    ensures d >= current
    decreases sel, 0
  {
    match sel
    case Field(_, _, sub) => Depth(sub, current + 1)
    case Inline(sels) => Depth(sels, current)
    case _ => current
  }

  predicate NoSpreads(sels: seq<Selection>) {
    forall i :: 0 <= i < |sels| ==> NoSpread(sels[i])
  }

  predicate NoSpread(sel: Selection) {
    match sel
    case Leaf(_, _) => true
    case Field(_, _, sub) => NoSpreads(sub)
    case Inline(sels) => NoSpreads(sels)
    case Spread(_) => false
  }

  lemma {:induction false} SyntacticDepth(sels: seq<Selection>, frags: Fragments, rank: string -> nat, bound: nat,
                                         config: Config, depth: nat, path: string)
    requires Fits(sels, frags, rank, bound)
    ensures Analyze(sels, frags, rank, bound, config, depth, path).depth >= Depth(sels, depth)
    ensures NoSpreads(sels) ==> Analyze(sels, frags, rank, bound, config, depth, path).depth == Depth(sels, depth)
    decreases sels
  {
    hide FieldAnalysis, Combine;
    if sels != [] {
      CombineParts(AnalyzeOne(sels[0], frags, rank, bound, config, depth, path),
                   Analyze(sels[1..], frags, rank, bound, config, depth, path));
      assert RankedOne(sels[0], frags, rank, bound);
      assert NoSpreads(sels) ==> NoSpread(sels[0]) && NoSpreads(sels[1..]);
      SyntacticDepth(sels[1..], frags, rank, bound, config, depth, path);
      match sels[0]
      case Leaf(name, args) => FieldParts(name, args, Empty(depth), path, config);
      case Field(name, args, sub) =>
        SyntacticDepth(sub, frags, rank, bound, config, depth + 1, Join(path, name));
        FieldParts(name, args, Analyze(sub, frags, rank, bound, config, depth + 1, Join(path, name)), path, config);
      case Inline(inner) => SyntacticDepth(inner, frags, rank, bound, config, depth, path);
      case _ =>
    }
  }

  lemma {:induction false} FieldsOnlyNoSpreads(sels: seq<Selection>)
    requires FieldsOnly(sels)
    ensures NoSpreads(sels)
    decreases sels
  {
    forall i | 0 <= i < |sels| ensures NoSpread(sels[i]) {
      if sels[i].Field? { FieldsOnlyNoSpreads(sels[i].sub); }
    }
  }

  /** The analyzer's depth is that of the document with every fragment written out. */
  lemma AnalyzerDepth(sels: seq<Selection>, frags: Fragments, rank: string -> nat, bound: nat,
                      config: Config, depth: nat, path: string)
    requires Fits(sels, frags, rank, bound)
    ensures Analyze(sels, frags, rank, bound, config, depth, path).depth
            == Depth(Expand(sels, frags, rank, bound), depth)
    ensures Analyze(sels, frags, rank, bound, config, depth, path).depth >= Depth(sels, depth)
    ensures NoSpreads(sels) ==> Analyze(sels, frags, rank, bound, config, depth, path).depth == Depth(sels, depth)
  {
    SyntacticDepth(sels, frags, rank, bound, config, depth, path);
    var expanded := Expand(sels, frags, rank, bound);
    InliningPreserves(sels, frags, rank, bound, config, depth, path);
    FieldsOnlyNoSpreads(expanded);
    FieldsOnlyRanked(expanded, NO_RANK);
    SyntacticDepth(expanded, map[], NO_RANK, 0, config, depth, path);
    hide Analyze, Expand, Depth;
  }

  /** `n` fields inside one another. */
  function Nest(n: nat): seq<Selection> {
    if n == 0 then [] else [Field("nested", [], Nest(n - 1))]
  }

  lemma {:induction false} NestDepth(n: nat, depth: nat)
    ensures NoSpreads(Nest(n)) && Depth(Nest(n), depth) == depth + n
  {
    if n > 0 {
      NestDepth(n - 1, depth + 1);
      var none: seq<Selection> := Nest(n)[1..];
      assert none == [] && Depth(none, depth) == depth;
    }
  }

  /** One fragment that spreads nothing: any selection set fits it. */
  lemma {:induction false} FitsOneFragment(sels: seq<Selection>, f: string, inner: seq<Selection>)
    requires NoSpreads(inner)
    ensures Fits(sels, map[f := inner], NO_RANK, 1)
    decreases sels
  {
    NoSpreadsRanked(inner, map[f := inner], 0);
    forall i | 0 <= i < |sels| ensures RankedOne(sels[i], map[f := inner], NO_RANK, 1) {
      match sels[i]
      case Field(_, _, sub) => FitsOneFragment(sub, f, inner);
      case Inline(sub) => FitsOneFragment(sub, f, inner);
      case _ =>
    }
  }

  lemma {:induction false} NoSpreadsRanked(sels: seq<Selection>, frags: Fragments, bound: nat)
    requires NoSpreads(sels)
    ensures Ranked(sels, frags, NO_RANK, bound)
    decreases sels
  {
    forall i | 0 <= i < |sels| ensures RankedOne(sels[i], frags, NO_RANK, bound) {
      assert NoSpread(sels[i]);
      match sels[i]
      case Field(_, _, sub) => NoSpreadsRanked(sub, frags, bound);
      case Inline(sub) => NoSpreadsRanked(sub, frags, bound);
      case _ =>
    }
  }

  /** Wherever a spread occurs, some definition of its fragment takes the analyzer as deep as one likes. */
  lemma {:induction false} SpreadReaches(sels: seq<Selection>, n: nat, config: Config, depth: nat, path: string)
    returns (f: string)
    requires !NoSpreads(sels)
    ensures Fits(sels, map[f := Nest(n)], NO_RANK, 1)
    ensures Analyze(sels, map[f := Nest(n)], NO_RANK, 1, config, depth, path).depth >= n
    decreases sels, 1
  {
    NestDepth(n, depth);
    hide Nest, FieldAnalysis, Combine, Expand;
    if NoSpread(sels[0]) {
      assert !NoSpreads(sels[1..]) by {
        var i :| 0 <= i < |sels| && !NoSpread(sels[i]);
        assert sels[1..][i - 1] == sels[i];
      }
      f := SpreadReaches(sels[1..], n, config, depth, path);
    } else {
      f := SpreadReachesOne(sels[0], n, config, depth, path);
    }
    FitsOneFragment(sels, f, Nest(n));
    CombineParts(AnalyzeOne(sels[0], map[f := Nest(n)], NO_RANK, 1, config, depth, path),
                 Analyze(sels[1..], map[f := Nest(n)], NO_RANK, 1, config, depth, path));
  }

  lemma {:induction false} SpreadReachesOne(sel: Selection, n: nat, config: Config, depth: nat, path: string)
    returns (f: string)
    requires !NoSpread(sel)
    ensures Acyclic(map[f := Nest(n)], NO_RANK, 1) && RankedOne(sel, map[f := Nest(n)], NO_RANK, 1)
    ensures AnalyzeOne(sel, map[f := Nest(n)], NO_RANK, 1, config, depth, path).depth >= n
    decreases sel, 0
  {
    NestDepth(n, depth);
    hide Nest, FieldAnalysis, Combine, Expand;
    match sel
    case Field(name, args, sub) =>
      f := SpreadReaches(sub, n, config, depth + 1, Join(path, name));
      FieldParts(name, args, Analyze(sub, map[f := Nest(n)], NO_RANK, 1, config, depth + 1, Join(path, name)), path,
                 config);
    case Inline(inner) => f := SpreadReaches(inner, n, config, depth, path);
    case Spread(name) =>
      f := name;
      FitsOneFragment([], f, Nest(n));
      NoSpreadsRanked(Nest(n), map[f := Nest(n)], 0);
      SyntacticDepth(Nest(n), map[f := Nest(n)], NO_RANK, 0, config, depth, path);
  }

  /** The validator's depth is the analyzer's, under these fragments. */
  ghost predicate DepthsAgree(sels: seq<Selection>, frags: Fragments, rank: string -> nat, bound: nat, config: Config) {
    Fits(sels, frags, rank, bound) ==> Analyze(sels, frags, rank, bound, config, 0, "").depth == Depth(sels, 0)
  }

  /** Depths agree whatever the fragments are exactly on documents without spreads. */
  lemma DepthsAgreeIff(sels: seq<Selection>, config: Config)
    ensures NoSpreads(sels)
            <==> forall frags: Fragments, rank: string -> nat, bound: nat ::
              DepthsAgree(sels, frags, rank, bound, config)
  {
    if NoSpreads(sels) {
      forall frags: Fragments, rank: string -> nat, bound: nat ensures DepthsAgree(sels, frags, rank, bound, config) {
        if Fits(sels, frags, rank, bound) { SyntacticDepth(sels, frags, rank, bound, config, 0, ""); }
      }
    } else {
      var f := SpreadReaches(sels, Depth(sels, 0) + 1, config, 0, "");
      assert !DepthsAgree(sels, map[f := Nest(Depth(sels, 0) + 1)], NO_RANK, 1, config);
    }
  }

  /** Some chain of nested fields and inline fragments leads to `path` at depth `d`. */
  ghost predicate Leads(sels: seq<Selection>, current: nat, here: string, d: nat, path: string) {
    (d == current && path == here) || exists i :: 0 <= i < |sels| && LeadsThrough(sels[i], current, here, d, path)
  }

  ghost predicate LeadsThrough(sel: Selection, current: nat, here: string, d: nat, path: string) {
    match sel
    case Field(name, _, sub) => Leads(sub, current + 1, Join(here, name), d, path)
    case Inline(sels) => Leads(sels, current, here, d, path)
    case _ => false
  }

  lemma {:induction false} DepthOfEach(sels: seq<Selection>, current: nat, i: nat)
    requires i < |sels|
    ensures DepthOne(sels[i], current) <= Depth(sels, current)
    decreases i
  {
    if i > 0 { DepthOfEach(sels[1..], current, i - 1); }
  }

  lemma {:induction false} DepthSnoc(sels: seq<Selection>, current: nat, i: nat)
    requires i < |sels|
    ensures Depth(sels[..i + 1], current) == MaxNat(Depth(sels[..i], current), DepthOne(sels[i], current))
    decreases i
  {
    if i == 0 {
      assert sels[..1] == [sels[0]] && sels[..1][1..] == [];
    } else {
      assert sels[..i + 1][1..] == sels[1..][..i] && sels[..i][1..] == sels[1..][..i - 1];
      DepthSnoc(sels[1..], current, i - 1);
    }
  }

  /** `validateSelectionSetDepth`: stops as soon as the limit is exceeded. */
  method ValidateSelectionSetDepth(sels: seq<Selection>, maxDepth: int, currentDepth: nat, currentPath: string)
    returns (depth: nat, path: string)
    ensures depth > maxDepth <==> Depth(sels, currentDepth) > maxDepth
    ensures depth <= maxDepth ==> depth == Depth(sels, currentDepth)
    ensures Leads(sels, currentDepth, currentPath, depth, path)
    decreases sels
  {
    depth, path := currentDepth, currentPath;
    for i := 0 to |sels|
      invariant depth == Depth(sels[..i], currentDepth)
      invariant i > 0 && depth > currentDepth ==> depth <= maxDepth
      invariant Leads(sels, currentDepth, currentPath, depth, path)
    {
      DepthSnoc(sels, currentDepth, i);
      DepthOfEach(sels, currentDepth, i);
      var childDepth, childPath := currentDepth, currentPath;
      match sels[i] {
        case Field(name, _, sub) =>
          var fieldPath, nextDepth := Join(currentPath, name), currentDepth + 1;
          assert Leads(sub, nextDepth, fieldPath, nextDepth, fieldPath);
          assert LeadsThrough(sels[i], currentDepth, currentPath, nextDepth, fieldPath);
          if nextDepth > maxDepth { return nextDepth, fieldPath; }
          childDepth, childPath := ValidateSelectionSetDepth(sub, maxDepth, nextDepth, fieldPath);
          assert LeadsThrough(sels[i], currentDepth, currentPath, childDepth, childPath);
        case Inline(inner) =>
          childDepth, childPath := ValidateSelectionSetDepth(inner, maxDepth, currentDepth, currentPath);
          assert LeadsThrough(sels[i], currentDepth, currentPath, childDepth, childPath);
        case _ =>
      }
      if childDepth > depth { depth, path := childDepth, childPath; }
      if (sels[i].Field? || sels[i].Inline?) && childDepth > maxDepth { return childDepth, childPath; }
    }
    assert sels[..|sels|] == sels;
  }

  /** `calculateSelectionSetDepth`: starts from one and ignores spreads. */
  method CalculateSelectionSetDepth(sels: seq<Selection>) returns (maxDepth: nat)
    ensures maxDepth == Depth(sels, 0) + 1
    decreases sels
  {
    maxDepth := 1;
    for i := 0 to |sels|
      invariant maxDepth == Depth(sels[..i], 0) + 1
    {
      DepthSnoc(sels, 0, i);
      match sels[i] {
        case Field(_, _, sub) =>
          var childDepth := CalculateSelectionSetDepth(sub);
          DepthShift(sub, 0, 1);
          maxDepth := MaxNat(maxDepth, 1 + childDepth);
        case Inline(inner) =>
          var childDepth := CalculateSelectionSetDepth(inner);
          maxDepth := MaxNat(maxDepth, childDepth);
        case _ =>
      }
    }
    assert sels[..|sels|] == sels;
  }

  lemma {:induction false} DepthShift(sels: seq<Selection>, current: nat, shift: nat)
    ensures Depth(sels, current + shift) == Depth(sels, current) + shift
    decreases sels
  {
    if sels != [] {
      DepthShift(sels[1..], current, shift);
      match sels[0]
      case Field(_, _, sub) => DepthShift(sub, current + 1, shift);
      case Inline(inner) => DepthShift(inner, current, shift);
      case _ =>
    }
  }

  lemma {:induction false} NoSpreadsFit(sels: seq<Selection>, rank: string -> nat, bound: nat)
    requires NoSpreads(sels)
    ensures Fits(sels, map[], rank, bound)
    decreases sels
  {
    forall i | 0 <= i < |sels| ensures RankedOne(sels[i], map[], rank, bound) {
      assert NoSpread(sels[i]);
      match sels[i]
      case Field(_, _, sub) => NoSpreadsFit(sub, rank, bound);
      case Inline(inner) => NoSpreadsFit(inner, rank, bound);
      case _ =>
    }
  }

  /** `validateQueryDepth`: without spreads it accepts exactly the depths the analyzer allows, and reports them. */
  method ValidateQueryDepth(operation: Option<seq<Selection>>, maxDepth: int, ghost config: Config)
    returns (valid: bool, depth: nat)
    ensures operation.None? ==> valid && depth == 0
    ensures operation.Some? ==>
            (valid <==> Depth(operation.value, 0) <= maxDepth) && (valid ==> depth == Depth(operation.value, 0))
    ensures operation.Some? && NoSpreads(operation.value) ==>
              Fits(operation.value, map[], NO_RANK, 0)
              && var analyzed := Analyze(operation.value, map[], NO_RANK, 0, config, 0, "").depth;
                 (valid <==> analyzed <= maxDepth) && (valid ==> depth == analyzed)
  {
    if operation.None? { return true, 0; }
    var path;
    depth, path := ValidateSelectionSetDepth(operation.value, maxDepth, 0, "");
    valid := !(depth > maxDepth);
    if NoSpreads(operation.value) {
      NoSpreadsFit(operation.value, NO_RANK, 0);
      AnalyzerDepth(operation.value, map[], NO_RANK, 0, config, 0, "");
    }
  }

  /** `calculateQueryDepth`: one more than the analyzer's depth, unless there is no operation to measure. */
  method CalculateQueryDepth(operation: Option<seq<Selection>>, ghost config: Config) returns (depth: nat)
    ensures operation.None? ==> depth == 0
    ensures operation.Some? && NoSpreads(operation.value) ==>
              Fits(operation.value, map[], NO_RANK, 0)
              && depth == Analyze(operation.value, map[], NO_RANK, 0, config, 0, "").depth + 1
  {
    if operation.None? { return 0; }
    depth := CalculateSelectionSetDepth(operation.value);
    if NoSpreads(operation.value) {
      NoSpreadsFit(operation.value, NO_RANK, 0);
      AnalyzerDepth(operation.value, map[], NO_RANK, 0, config, 0, "");
    }
  }

  /** With spreads the measures part ways: a single spread hides any nesting from the validator. */
  lemma SpreadHidesDepth(frags: Fragments, rank: string -> nat, f: string, config: Config)
    requires f in frags && Acyclic(frags, rank, rank(f) + 1) && NoSpreads(frags[f])
    ensures Fits([Spread(f)], frags, rank, rank(f) + 1)
    ensures Depth([Spread(f)], 0) == 0
    ensures Analyze([Spread(f)], frags, rank, rank(f) + 1, config, 0, "").depth == Depth(frags[f], 0)
  {
    var sels, bound := [Spread(f)], rank(f) + 1;
    var none := sels[1..];
    assert none == [] && Depth(none, 0) == 0;
    assert RankedOne(sels[0], frags, rank, bound);
    var inner := Analyze(frags[f], frags, rank, rank(f), config, 0, "");
    AnalyzerDepth(frags[f], frags, rank, rank(f), config, 0, "");
    hide Combine;
    assert Analyze(none, frags, rank, bound, config, 0, "") == Empty(0);
    assert AnalyzeOne(sels[0], frags, rank, bound, config, 0, "") == inner;
    assert Analyze(sels, frags, rank, bound, config, 0, "") == Combine(inner, Empty(0));
    CombineEmpty(inner, 0);
  }
}
