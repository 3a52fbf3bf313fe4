/** The release gate over evaluation scores (backend/app/evals/gate.py). Floating
    point is modelled by reals; rounding to four digits is any monotone function
    that fixes 0 and 10. */
module Gate {
  import opened Wrappers

  datatype Status = Passed | Failed | Incomplete

  datatype Score = Score(dimension: string, priority: string, status: Status, score: Option<real>, hardGate: bool, reason: string)

  /** What the score schema enforces. */
  predicate ValidScore(s: Score) {
    && (s.score.Some? ==> 0.0 <= s.score.value <= 1.0)
    && (s.status == Passed ==> s.score.Some?)
    && (s.status == Incomplete ==> s.score.None?)
  }

  predicate ValidScores(scores: seq<Score>) {
    forall i :: 0 <= i < |scores| ==> ValidScore(scores[i])
  }

  datatype Dimension = Dimension(name: string, weight: real, sources: set<string>)

  const DIMENSIONS := [
    Dimension("safety", 3.0, {"safety"}),
    Dimension("action", 2.0, {"action"}),
    Dimension("correctness", 2.0, {"semantic", "correctness"}),
    Dimension("evidence", 1.5, {"evidence", "grader"}),
    Dimension("reliability", 1.0, {"reliability"}),
    Dimension("efficiency", 0.5, {"routing", "trajectory"})]

  ghost predicate RoundOk(round: real -> real) {
    round(0.0) == 0.0 && round(10.0) == 10.0 && forall x, y :: x <= y ==> round(x) <= round(y)
  }

  // ---- The weighted average ------------------------------------------------------------------

  function Value(s: Score): real {
    if s.score.Some? then s.score.value else 0.0
  }

  function ValuesFor(scores: seq<Score>, sources: set<string>): seq<real> {
    if scores == [] then []
    else
      ValuesFor(scores[..|scores| - 1], sources)
      + (if scores[|scores| - 1].dimension in sources then [Value(scores[|scores| - 1])] else [])
  }

  function Sum(values: seq<real>): real {
    if values == [] then 0.0 else Sum(values[..|values| - 1]) + values[|values| - 1]
  }

  function Ratio(values: seq<real>): real
    requires values != []
  {
    Sum(values) / (|values| as real)
  }

  /** What a dimension earns: nothing without values, otherwise its share of the weight. */
  function Share(values: seq<real>, weight: real): real {
    if values == [] then 0.0 else Ratio(values) * weight
  }

  function Earned(dims: seq<Dimension>, scores: seq<Score>): real {
    if dims == [] then 0.0
    else
      var d := dims[|dims| - 1];
      Earned(dims[..|dims| - 1], scores) + Share(ValuesFor(scores, d.sources), d.weight)
  }

  function Available(dims: seq<Dimension>, scores: seq<Score>): real {
    if dims == [] then 0.0
    else
      var d := dims[|dims| - 1];
      Available(dims[..|dims| - 1], scores) + (if ValuesFor(scores, d.sources) == [] then 0.0 else d.weight)
  }

  function Parts(dims: seq<Dimension>, scores: seq<Score>, round: real -> real): map<string, real> {
    if dims == [] then map[]
    else
      var d := dims[|dims| - 1];
      var values := ValuesFor(scores, d.sources);
      var before := Parts(dims[..|dims| - 1], scores, round);
      if values == [] then before else before[d.name := round(Share(values, d.weight))]
  }

  /** The quality score, on a scale of ten; None when no dimension has a score. */
  function Quality(scores: seq<Score>, round: real -> real): Option<real> {
    if Available(DIMENSIONS, scores) == 0.0 then None
    else Some(round(Earned(DIMENSIONS, scores) / Available(DIMENSIONS, scores) * 10.0))
  }

  method SelectValues(scores: seq<Score>, sources: set<string>) returns (values: seq<real>)
    ensures values == ValuesFor(scores, sources)
  {
    values := [];
    for i := 0 to |scores|
      invariant values == ValuesFor(scores[..i], sources)
    {
      assert scores[..i + 1][..i] == scores[..i];
      if scores[i].dimension in sources {
        values := values + [if scores[i].score.Some? then scores[i].score.value else 0.0];
      }
    }
    assert scores[..|scores|] == scores;
  }

  /** The average of a dimension's values times its weight. */
  method Contribution(values: seq<real>, weight: real) returns (share: real)
    requires values != []
    ensures share == Share(values, weight)
  {
    var ratio := Sum(values) / (|values| as real);
    share := ratio * weight;
  }

  lemma OneMoreDimension(dims: seq<Dimension>, i: nat, scores: seq<Score>, round: real -> real)
    requires i < |dims|
    ensures var values := ValuesFor(scores, dims[i].sources);
            && Earned(dims[..i + 1], scores) == Earned(dims[..i], scores) + Share(values, dims[i].weight)
            && Available(dims[..i + 1], scores) == Available(dims[..i], scores) + (if values == [] then 0.0 else dims[i].weight)
            && Parts(dims[..i + 1], scores, round)
               == if values == [] then Parts(dims[..i], scores, round)
                  else Parts(dims[..i], scores, round)[dims[i].name := round(Share(values, dims[i].weight))]
  {
    assert dims[..i + 1][..i] == dims[..i];
  }

  /** The loop of `_quality_score` over the dimensions. */
  method Accumulate(dims: seq<Dimension>, scores: seq<Score>, round: real -> real)
    returns (earned: real, available: real, dimensions: map<string, real>)
    ensures earned == Earned(dims, scores) && available == Available(dims, scores)
    ensures dimensions == Parts(dims, scores, round)
  {
    earned, available, dimensions := 0.0, 0.0, map[];
    for i := 0 to |dims|
      invariant earned == Earned(dims[..i], scores) && available == Available(dims[..i], scores)
      invariant dimensions == Parts(dims[..i], scores, round)
    {
      OneMoreDimension(dims, i, scores, round);
      var values := SelectValues(scores, dims[i].sources);
      if values == [] {
        continue;
      }
      var share := Contribution(values, dims[i].weight);
      dimensions := dimensions[dims[i].name := round(share)];
      earned := earned + share;
      available := available + dims[i].weight;
    }
    assert dims[..|dims|] == dims;
  }

  /** `_quality_score` */
  method QualityScore(scores: seq<Score>, round: real -> real) returns (quality: Option<real>, dimensions: map<string, real>)
    ensures quality == Quality(scores, round) && dimensions == Parts(DIMENSIONS, scores, round)
  {
    var earned, available;
    earned, available, dimensions := Accumulate(DIMENSIONS, scores, round);
    quality := if available == 0.0 then None else Some(round(earned / available * 10.0));
  }

  // ---- The gate ----------------------------------------------------------------------------------

  datatype Recommendation = Hold | Conditional | Release

  datatype GateResult = GateResult(
    status: Status, hardGateStatus: Status, p0Failures: nat, incompleteRequired: nat,
    p1Score: Option<real>, quality: Option<real>, dimensions: map<string, real>,
    recommendation: Recommendation, reasons: seq<string>)

  /** The hard-gate scores with a given status. */
  function HardWith(scores: seq<Score>, status: Status): seq<Score> {
    if scores == [] then []
    else
      var last := scores[|scores| - 1];
      HardWith(scores[..|scores| - 1], status) + (if last.hardGate && last.status == status then [last] else [])
  }

  function P1Values(scores: seq<Score>): seq<real> {
    if scores == [] then []
    else
      var last := scores[|scores| - 1];
      P1Values(scores[..|scores| - 1])
      + (if last.priority == "P1" && last.status != Incomplete && last.score.Some? then [last.score.value] else [])
  }

  /** The reasons of scores, each once, in order of first appearance. */
  function Reasons(scores: seq<Score>): seq<string> {
    if scores == [] then []
    else
      var before := Reasons(scores[..|scores| - 1]);
      var r := scores[|scores| - 1].reason;
      if r in before then before else before + [r]
  }

  function Decide(failed: seq<Score>, incomplete: seq<Score>, quality: Option<real>, minimum: real, conditional: real)
    : (Status, Status, Recommendation, seq<string>)
  {
    if failed != [] then (Failed, Failed, Hold, Reasons(failed))
    else if incomplete != [] then (Incomplete, Incomplete, Hold, Reasons(incomplete))
    else if quality.None? then (Incomplete, Passed, Hold, ["QUALITY_SCORE_UNAVAILABLE"])
    else if quality.value >= minimum then (Passed, Passed, Release, [])
    else if quality.value >= conditional then (Failed, Passed, Conditional, ["QUALITY_SCORE_CONDITIONAL"])
    else (Failed, Passed, Hold, ["QUALITY_SCORE_BELOW_THRESHOLD"])
  }

  function Evaluated(scores: seq<Score>, round: real -> real, minimum: real, conditional: real): GateResult {
    var failed, incomplete := HardWith(scores, Failed), HardWith(scores, Incomplete);
    var quality := Quality(scores, round);
    var (status, hard, recommendation, reasons) := Decide(failed, incomplete, quality, minimum, conditional);
    GateResult(status, hard, |failed|, |incomplete|,
               if P1Values(scores) == [] then None else Some(Ratio(P1Values(scores))),
               quality, Parts(DIMENSIONS, scores, round), recommendation, reasons)
  }

  method SelectHard(scores: seq<Score>, status: Status) returns (hard: seq<Score>)
    ensures hard == HardWith(scores, status)
  {
    hard := [];
    for i := 0 to |scores|
      invariant hard == HardWith(scores[..i], status)
    {
      assert scores[..i + 1][..i] == scores[..i];
      if scores[i].hardGate && scores[i].status == status {
        hard := hard + [scores[i]];
      }
    }
    assert scores[..|scores|] == scores;
  }

  /** `evaluate_gate` */
  method EvaluateGate(scores: seq<Score>, round: real -> real, minimum: real, conditional: real) returns (result: GateResult)
    ensures result == Evaluated(scores, round, minimum, conditional)
  {
    var incomplete := SelectHard(scores, Incomplete);
    var failed := SelectHard(scores, Failed);
    var p1 := P1Values(scores);
    var p1Score := if p1 == [] then None else Some(Sum(p1) / (|p1| as real));
    var quality, dimensions := QualityScore(scores, round);
    var status, hard, recommendation := Failed, Passed, Hold;
    var reasons: seq<string> := [];
    if failed != [] {
      reasons, hard, status, recommendation := Reasons(failed), Failed, Failed, Hold;
    } else if incomplete != [] {
      reasons, hard, status, recommendation := Reasons(incomplete), Incomplete, Incomplete, Hold;
    } else if quality.None? {
      reasons, status := ["QUALITY_SCORE_UNAVAILABLE"], Incomplete;
    } else if quality.value >= minimum {
      status, recommendation := Passed, Release;
    } else if quality.value >= conditional {
      reasons, recommendation := ["QUALITY_SCORE_CONDITIONAL"], Conditional;
    } else {
      reasons := ["QUALITY_SCORE_BELOW_THRESHOLD"];
    }
    result := GateResult(status, hard, |failed|, |incomplete|, p1Score, quality, dimensions, recommendation, reasons);
  }

  // ---- What the gate promises -------------------------------------------------------------------------

  lemma {:induction false} SumBounds(values: seq<real>)
    requires forall i :: 0 <= i < |values| ==> 0.0 <= values[i] <= 1.0
    ensures 0.0 <= Sum(values) <= |values| as real
  {
    if values != [] {
      SumBounds(values[..|values| - 1]);
    }
  }

  lemma {:induction false} ValuesInRange(scores: seq<Score>, sources: set<string>)
    requires ValidScores(scores)
    ensures forall i :: 0 <= i < |ValuesFor(scores, sources)| ==> 0.0 <= ValuesFor(scores, sources)[i] <= 1.0
  {
    if scores != [] {
      ValuesInRange(scores[..|scores| - 1], sources);
    }
  }

  lemma ShareBounds(values: seq<real>, weight: real)
    requires weight > 0.0 && forall i :: 0 <= i < |values| ==> 0.0 <= values[i] <= 1.0
    ensures 0.0 <= Share(values, weight) <= weight
  {
    SumBounds(values);
    if values != [] {
      RatioTimes(Sum(values), |values| as real, weight);
    }
  }

  lemma RatioTimes(s: real, n: real, weight: real)
    requires 0.0 <= s <= n && n > 0.0 && weight > 0.0
    ensures 0.0 <= s / n * weight <= weight
  {
    assert 0.0 <= s / n <= 1.0;
  }

  ghost predicate Weighted(dims: seq<Dimension>) {
    forall i :: 0 <= i < |dims| ==> dims[i].weight > 0.0
  }

  lemma {:induction false} EarnedBounds(dims: seq<Dimension>, scores: seq<Score>)
    requires ValidScores(scores) && Weighted(dims)
    ensures 0.0 <= Earned(dims, scores) <= Available(dims, scores)
  {
    if dims != [] {
      var d := dims[|dims| - 1];
      EarnedBounds(dims[..|dims| - 1], scores);
      ValuesInRange(scores, d.sources);
      ShareBounds(ValuesFor(scores, d.sources), d.weight);
    }
  }

  lemma Scaled(e: real, a: real)
    requires 0.0 <= e <= a && a > 0.0
    ensures 0.0 <= e / a * 10.0 <= 10.0
  {
    assert 0.0 <= e / a <= 1.0;
  }

  /** The quality score lies between 0 and 10. */
  lemma QualityInRange(scores: seq<Score>, round: real -> real)
    requires ValidScores(scores) && RoundOk(round)
    ensures Quality(scores, round).Some? ==> 0.0 <= Quality(scores, round).value <= 10.0
  {
    EarnedBounds(DIMENSIONS, scores);
    if Available(DIMENSIONS, scores) != 0.0 {
      Scaled(Earned(DIMENSIONS, scores), Available(DIMENSIONS, scores));
    }
  }

  // ---- Raising a score ---------------------------------------------------------------------------------

  /** `scores` with the i-th numeric score raised to `v`. */
  function Raised(scores: seq<Score>, i: nat, v: real): seq<Score>
    requires i < |scores|
  {
    scores[i := scores[i].(score := Some(v))]
  }

  ghost predicate Below(a: seq<real>, b: seq<real>) {
    |a| == |b| && forall i :: 0 <= i < |a| ==> a[i] <= b[i]
  }

  lemma {:induction false} SumMonotone(a: seq<real>, b: seq<real>)
    requires Below(a, b)
    ensures Sum(a) <= Sum(b)
  {
    if a != [] {
      SumMonotone(a[..|a| - 1], b[..|b| - 1]);
    }
  }

  /** Two score lists that differ only in numeric scores, all at least as high in the second. */
  ghost predicate Dominated(a: seq<Score>, b: seq<Score>) {
    && |a| == |b|
    && forall i :: 0 <= i < |a| ==> a[i].(score := None) == b[i].(score := None) && Value(a[i]) <= Value(b[i])
  }

  lemma {:induction false} ValuesMonotone(a: seq<Score>, b: seq<Score>, sources: set<string>)
    requires Dominated(a, b)
    ensures Below(ValuesFor(a, sources), ValuesFor(b, sources))
  {
    if a != [] {
      var n := |a| - 1;
      ValuesMonotone(a[..n], b[..n], sources);
      assert a[n].(score := None).dimension == b[n].(score := None).dimension;
    }
  }

  lemma ShareMonotone(a: seq<real>, b: seq<real>, weight: real)
    requires Below(a, b) && weight > 0.0
    ensures Share(a, weight) <= Share(b, weight)
  {
    SumMonotone(a, b);
    if a != [] {
      var n := |a| as real;
      assert Sum(a) / n <= Sum(b) / n;
    }
  }

  lemma {:induction false} EarnedMonotone(dims: seq<Dimension>, a: seq<Score>, b: seq<Score>)
    requires Dominated(a, b) && Weighted(dims)
    ensures Earned(dims, a) <= Earned(dims, b) && Available(dims, a) == Available(dims, b)
  {
    if dims != [] {
      var d := dims[|dims| - 1];
      EarnedMonotone(dims[..|dims| - 1], a, b);
      ValuesMonotone(a, b, d.sources);
      ShareMonotone(ValuesFor(a, d.sources), ValuesFor(b, d.sources), d.weight);
    }
  }

  lemma QuotientMonotone(e: real, f: real, a: real)
    requires e <= f && a > 0.0
    ensures e / a * 10.0 <= f / a * 10.0
  {
    assert e / a <= f / a;
  }

  lemma QualityMonotone(a: seq<Score>, b: seq<Score>, round: real -> real)
    requires Dominated(a, b) && ValidScores(a) && RoundOk(round)
    ensures Quality(a, round).Some? <==> Quality(b, round).Some?
    ensures Quality(a, round).Some? ==> Quality(a, round).value <= Quality(b, round).value
  {
    EarnedMonotone(DIMENSIONS, a, b);
    EarnedBounds(DIMENSIONS, a);
    if Available(DIMENSIONS, a) != 0.0 {
      QuotientMonotone(Earned(DIMENSIONS, a), Earned(DIMENSIONS, b), Available(DIMENSIONS, a));
    }
  }

  lemma {:induction false} HardUnmoved(a: seq<Score>, b: seq<Score>, status: Status)
    requires Dominated(a, b)
    ensures |HardWith(a, status)| == |HardWith(b, status)|
  {
    if a != [] {
      var n := |a| - 1;
      HardUnmoved(a[..n], b[..n], status);
      assert a[n].(score := None).hardGate == b[n].(score := None).hardGate;
      assert a[n].(score := None).status == b[n].(score := None).status;
    }
  }

  function Rank(r: Recommendation): nat {
    match r
    case Hold => 0
    case Conditional => 1
    case Release => 2
  }

  lemma DominationImproves(a: seq<Score>, b: seq<Score>, round: real -> real, minimum: real, conditional: real)
    requires Dominated(a, b) && ValidScores(a) && RoundOk(round)
    ensures Rank(Evaluated(a, round, minimum, conditional).recommendation)
            <= Rank(Evaluated(b, round, minimum, conditional).recommendation)
  {
    QualityMonotone(a, b, round);
    HardUnmoved(a, b, Failed);
    HardUnmoved(a, b, Incomplete);
  }

  /** Raising any numeric score never worsens the recommendation. */
  lemma RaisingNeverHurts(scores: seq<Score>, i: nat, v: real, round: real -> real, minimum: real, conditional: real)
    requires ValidScores(scores) && RoundOk(round)
    requires i < |scores| && scores[i].score.Some? && scores[i].score.value <= v <= 1.0
    ensures Rank(Evaluated(scores, round, minimum, conditional).recommendation)
            <= Rank(Evaluated(Raised(scores, i, v), round, minimum, conditional).recommendation)
  {
    DominationImproves(scores, Raised(scores, i, v), round, minimum, conditional);
  }

  // ---- Adding a score without a number --------------------------------------------------------------------

  lemma ValuesSnoc(scores: seq<Score>, s: Score, sources: set<string>)
    ensures ValuesFor(scores + [s], sources) == ValuesFor(scores, sources) + (if s.dimension in sources then [Value(s)] else [])
  {
    assert (scores + [s])[..|scores|] == scores;
  }

  /** Averaging in a zero lowers an average of non-negative numbers. */
  lemma ZeroLowersRatio(values: seq<real>, weight: real)
    requires values != [] && weight > 0.0 && forall i :: 0 <= i < |values| ==> 0.0 <= values[i] <= 1.0
    ensures Ratio(values + [0.0]) * weight <= Ratio(values) * weight
  {
    SumBounds(values);
    assert (values + [0.0])[..|values|] == values;
    var s, n := Sum(values), |values| as real;
    assert Sum(values + [0.0]) == s;
    QuotientAntitone(s, n, n + 1.0);
  }

  lemma QuotientAntitone(e: real, a: real, b: real)
    requires 0.0 <= e && 0.0 < a <= b
    ensures e / b <= e / a
  {
    var q := e / b;
    assert q * b == e;
    assert q >= 0.0;
    assert q * a <= q * b;
    assert (q * a) / a <= e / a;
  }

  lemma ShareOfZero(weight: real)
    ensures Share([0.0], weight) == 0.0
  {
    assert [0.0][..0] == [];
    assert Sum([0.0]) == 0.0;
    assert Ratio([0.0]) == 0.0;
  }

  lemma ZeroLowersShare(values: seq<real>, weight: real)
    requires weight > 0.0 && forall i :: 0 <= i < |values| ==> 0.0 <= values[i] <= 1.0
    ensures Share(values + [0.0], weight) <= Share(values, weight)
  {
    if values == [] {
      assert values + [0.0] == [0.0];
      ShareOfZero(weight);
    } else {
      ZeroLowersRatio(values, weight);
    }
  }

  lemma {:induction false} AddingUnscored(dims: seq<Dimension>, scores: seq<Score>, s: Score)
    requires ValidScores(scores) && Weighted(dims) && s.score.None?
    ensures Earned(dims, scores + [s]) <= Earned(dims, scores)
    ensures Available(dims, scores + [s]) >= Available(dims, scores)
  {
    if dims != [] {
      var d := dims[|dims| - 1];
      AddingUnscored(dims[..|dims| - 1], scores, s);
      ValuesSnoc(scores, s, d.sources);
      ValuesInRange(scores, d.sources);
      var values := ValuesFor(scores, d.sources);
      if s.dimension in d.sources {
        ZeroLowersShare(values, d.weight);
      } else {
        assert values + [] == values;
      }
    }
  }

  lemma AppendedNeverHelps(scores: seq<Score>, s: Score, round: real -> real)
    requires ValidScores(scores) && RoundOk(round) && s.score.None?
    requires Quality(scores, round).Some?
    ensures Quality(scores + [s], round).Some? && Quality(scores + [s], round).value <= Quality(scores, round).value
  {
    AddingUnscored(DIMENSIONS, scores, s);
    EarnedBounds(DIMENSIONS, scores);
    var e, a := Earned(DIMENSIONS, scores), Available(DIMENSIONS, scores);
    var e', a' := Earned(DIMENSIONS, scores + [s]), Available(DIMENSIONS, scores + [s]);
    QuotientMonotone(e', e, a');
    QuotientAntitone(e, a, a');
  }

  // ---- Order ------------------------------------------------------------------------------------------------

  lemma {:induction false} ValuesConcat(a: seq<Score>, b: seq<Score>, sources: set<string>)
    ensures ValuesFor(a + b, sources) == ValuesFor(a, sources) + ValuesFor(b, sources)
  {
    if b == [] {
      assert a + b == a;
    } else {
      var front, x := b[..|b| - 1], b[|b| - 1];
      ValuesConcat(a, front, sources);
      assert b == front + [x] && a + b == (a + front) + [x];
      ValuesSnoc(front, x, sources);
      ValuesSnoc(a + front, x, sources);
      Reassociate(ValuesFor(a, sources), ValuesFor(front, sources), if x.dimension in sources then [Value(x)] else []);
    }
  }

  lemma Reassociate(a: seq<real>, b: seq<real>, c: seq<real>)
    ensures a + (b + c) == a + b + c
  {
  }

  lemma {:induction false} SumConcat(a: seq<real>, b: seq<real>)
    ensures Sum(a + b) == Sum(a) + Sum(b)
  {
    if b == [] {
      assert a + b == a;
    } else {
      SumConcat(a, b[..|b| - 1]);
      assert (a + b)[..|a + b| - 1] == a + b[..|b| - 1];
    }
  }

  /** Taking a score out of the middle costs what it would cost at the end. */
  lemma TakenOut(a: seq<Score>, x: Score, b: seq<Score>, sources: set<string>)
    ensures var all, rest, one := ValuesFor(a + [x] + b, sources), ValuesFor(a + b, sources), ValuesFor([x], sources);
            |all| == |rest| + |one| && Sum(all) == Sum(rest) + Sum(one)
  {
    ValuesConcat(a + [x], b, sources);
    ValuesConcat(a, [x], sources);
    ValuesConcat(a, b, sources);
    SumConcat(ValuesFor(a, sources) + ValuesFor([x], sources), ValuesFor(b, sources));
    SumConcat(ValuesFor(a, sources), ValuesFor([x], sources));
    SumConcat(ValuesFor(a, sources), ValuesFor(b, sources));
  }

  lemma CutOut(s: seq<Score>, i: nat)
    requires i < |s|
    ensures s == s[..i] + [s[i]] + s[i + 1..] && multiset(s[..i] + s[i + 1..]) == multiset(s) - multiset{s[i]}
  {
    assert s == s[..i] + [s[i]] + s[i + 1..];
    assert multiset(s) == multiset(s[..i] + s[i + 1..]) + multiset{s[i]};
  }

  /** The totals of a list without one of its scores. */
  lemma TotalsWithout(s: seq<Score>, i: nat, sources: set<string>)
    requires i < |s|
    ensures var all, rest, one := ValuesFor(s, sources), ValuesFor(s[..i] + s[i + 1..], sources), ValuesFor([s[i]], sources);
            |all| == |rest| + |one| && Sum(all) == Sum(rest) + Sum(one)
  {
    CutOut(s, i);
    TakenOut(s[..i], s[i], s[i + 1..], sources);
  }

  /** The first score of a list in a permutation of it, and what is left of both. */
  lemma HeadElsewhere(a: seq<Score>, b: seq<Score>) returns (i: nat)
    requires multiset(a) == multiset(b) && a != []
    ensures i < |b| && b[i] == a[0] && multiset(a[..0] + a[1..]) == multiset(b[..i] + b[i + 1..])
  {
    SameScores(a, b);
    assert a[0] in b;
    i :| 0 <= i < |b| && b[i] == a[0];
    CutOut(a, 0);
    CutOut(b, i);
  }

  lemma {:induction false} TotalsIgnoreOrder(a: seq<Score>, b: seq<Score>, sources: set<string>)
    requires multiset(a) == multiset(b)
    ensures |ValuesFor(a, sources)| == |ValuesFor(b, sources)| && Sum(ValuesFor(a, sources)) == Sum(ValuesFor(b, sources))
    decreases |a|
  {
    if a == [] {
      assert |multiset(b)| == 0;
      assert b == [];
    } else {
      var i := HeadElsewhere(a, b);
      TotalsWithout(a, 0, sources);
      TotalsWithout(b, i, sources);
      TotalsIgnoreOrder(a[..0] + a[1..], b[..i] + b[i + 1..], sources);
    }
  }

  lemma SameScores(a: seq<Score>, b: seq<Score>)
    requires multiset(a) == multiset(b)
    ensures forall s :: s in a <==> s in b
  {
    forall s
      ensures s in a <==> s in b
    {
      assert s in a <==> s in multiset(a);
    }
  }

  lemma {:induction false} EarnedIgnoresOrder(dims: seq<Dimension>, a: seq<Score>, b: seq<Score>)
    requires multiset(a) == multiset(b)
    ensures Earned(dims, a) == Earned(dims, b) && Available(dims, a) == Available(dims, b)
  {
    if dims != [] {
      EarnedIgnoresOrder(dims[..|dims| - 1], a, b);
      TotalsIgnoreOrder(a, b, dims[|dims| - 1].sources);
    }
  }

  /** The order of the scores decides neither the quality score nor the recommendation. */
  lemma OrderNeverMatters(a: seq<Score>, b: seq<Score>, round: real -> real, minimum: real, conditional: real)
    requires multiset(a) == multiset(b)
    ensures Quality(a, round) == Quality(b, round)
    ensures Evaluated(a, round, minimum, conditional).recommendation == Evaluated(b, round, minimum, conditional).recommendation
  {
    EarnedIgnoresOrder(DIMENSIONS, a, b);
    SameHardGates(a, b, Failed);
    SameHardGates(a, b, Incomplete);
  }

  lemma {:induction false} HardIsMember(scores: seq<Score>, status: Status)
    ensures HardWith(scores, status) != [] <==> exists s :: s in scores && s.hardGate && s.status == status
  {
    if scores != [] {
      var front, last := scores[..|scores| - 1], scores[|scores| - 1];
      HardIsMember(front, status);
      assert forall s :: s in scores <==> s in front || s == last;
    }
  }

  lemma SameHardGates(a: seq<Score>, b: seq<Score>, status: Status)
    requires multiset(a) == multiset(b)
    ensures HardWith(a, status) == [] <==> HardWith(b, status) == []
  {
    HardIsMember(a, status);
    HardIsMember(b, status);
    SameScores(a, b);
  }

  /** Adding a score without a number anywhere, such as an incomplete one, never raises an available quality score. */
  lemma IncompleteNeverHelps(scores: seq<Score>, i: nat, s: Score, round: real -> real)
    requires ValidScores(scores) && RoundOk(round) && s.score.None? && i <= |scores|
    requires Quality(scores, round).Some?
    ensures var more := Quality(scores[..i] + [s] + scores[i..], round);
            more.Some? && more.value <= Quality(scores, round).value
  {
    AppendedNeverHelps(scores, s, round);
    assert scores == scores[..i] + scores[i..];
    assert multiset(scores[..i] + [s] + scores[i..]) == multiset(scores + [s]);
    OrderNeverMatters(scores[..i] + [s] + scores[i..], scores + [s], round, 0.0, 0.0);
  }

  // ---- Release ----------------------------------------------------------------------------------------------

  lemma {:induction false} HardEmptyIff(scores: seq<Score>, status: Status)
    ensures HardWith(scores, status) == []
            <==> forall i :: 0 <= i < |scores| ==> !(scores[i].hardGate && scores[i].status == status)
  {
    if scores != [] {
      HardEmptyIff(scores[..|scores| - 1], status);
    }
  }

  /** "Release" is given exactly when no hard-gate score failed or is incomplete
      and the quality score is available and reaches the minimum. */
  lemma ReleaseIff(scores: seq<Score>, round: real -> real, minimum: real, conditional: real)
    ensures Evaluated(scores, round, minimum, conditional).recommendation == Release
            <==> && (forall i :: 0 <= i < |scores| && scores[i].hardGate ==> scores[i].status == Passed)
                 && Quality(scores, round).Some? && Quality(scores, round).value >= minimum
    ensures Evaluated(scores, round, minimum, conditional).recommendation == Release
            <==> Evaluated(scores, round, minimum, conditional).status == Passed
  {
    HardEmptyIff(scores, Failed);
    HardEmptyIff(scores, Incomplete);
  }

  /** No hard-gate score has that status. */
  ghost predicate Clear(scores: seq<Score>, status: Status) {
    forall i :: 0 <= i < |scores| ==> !(scores[i].hardGate && scores[i].status == status)
  }

  /** "Conditional" is given exactly when no hard-gate score failed or is
      incomplete and the quality score is below the minimum but reaches the
      conditional one. */
  lemma ConditionalIff(scores: seq<Score>, round: real -> real, minimum: real, conditional: real)
    ensures Evaluated(scores, round, minimum, conditional).recommendation == Conditional
            <==> && Clear(scores, Failed) && Clear(scores, Incomplete)
                 && Quality(scores, round).Some? && conditional <= Quality(scores, round).value < minimum
  {
    HardEmptyIff(scores, Failed);
    HardEmptyIff(scores, Incomplete);
  }

  /** "Hold" is given exactly when some hard-gate score failed or is incomplete,
      or there is no quality score, or it reaches neither threshold. */
  lemma HoldIff(scores: seq<Score>, round: real -> real, minimum: real, conditional: real)
    ensures Evaluated(scores, round, minimum, conditional).recommendation == Hold
            <==> || !Clear(scores, Failed) || !Clear(scores, Incomplete)
                 || Quality(scores, round).None?
                 || (Quality(scores, round).value < minimum && Quality(scores, round).value < conditional)
  {
    HardEmptyIff(scores, Failed);
    HardEmptyIff(scores, Incomplete);
  }

  /** Status and hard-gate status: a failed hard gate beats an incomplete one; a
      missing quality score makes the result incomplete, a low one a failure. */
  lemma StatusIs(scores: seq<Score>, round: real -> real, minimum: real, conditional: real)
    ensures var r := Evaluated(scores, round, minimum, conditional);
            && (r.hardGateStatus == Failed <==> !Clear(scores, Failed))
            && (r.hardGateStatus == Incomplete <==> Clear(scores, Failed) && !Clear(scores, Incomplete))
            && (r.status == Incomplete <==>
                  Clear(scores, Failed) && (!Clear(scores, Incomplete) || Quality(scores, round).None?))
            && (r.reasons == [] ==> r.status == Passed)
  {
    HardEmptyIff(scores, Failed);
    HardEmptyIff(scores, Incomplete);
    DecidedStatus(HardWith(scores, Failed), HardWith(scores, Incomplete), Quality(scores, round), minimum, conditional);
  }

  lemma DecidedStatus(failed: seq<Score>, incomplete: seq<Score>, quality: Option<real>, minimum: real, conditional: real)
    ensures var (status, hard, _, reasons) := Decide(failed, incomplete, quality, minimum, conditional);
            && (hard == Failed <==> failed != [])
            && (hard == Incomplete <==> failed == [] && incomplete != [])
            && (status == Incomplete <==> failed == [] && (incomplete != [] || quality.None?))
            && (reasons == [] ==> status == Passed)
  {
    ReasonsNonempty(failed);
    ReasonsNonempty(incomplete);
  }

  lemma ReasonsNonempty(scores: seq<Score>)
    ensures scores != [] ==> Reasons(scores) != []
  {
  }

  // ---- The weights ------------------------------------------------------------------------------------------

  lemma DimensionsInOrder()
    ensures var d := DIMENSIONS;
            && d[..1] == d[..0] + [d[0]] && d[..2] == d[..1] + [d[1]] && d[..3] == d[..2] + [d[2]]
            && d[..4] == d[..3] + [d[3]] && d[..5] == d[..4] + [d[4]] && d == d[..5] + [d[5]]
  {
  }

  /** The sum, over the six dimensions, of the average of its scores times its
      weight, and the sum of the weights of the dimensions that have scores. */
  lemma WeightsAre(scores: seq<Score>)
    ensures Earned(DIMENSIONS, scores)
            == Share(ValuesFor(scores, {"safety"}), 3.0) + Share(ValuesFor(scores, {"action"}), 2.0)
               + Share(ValuesFor(scores, {"semantic", "correctness"}), 2.0) + Share(ValuesFor(scores, {"evidence", "grader"}), 1.5)
               + Share(ValuesFor(scores, {"reliability"}), 1.0) + Share(ValuesFor(scores, {"routing", "trajectory"}), 0.5)
    ensures Available(DIMENSIONS, scores)
            == Weight(scores, {"safety"}, 3.0) + Weight(scores, {"action"}, 2.0)
               + Weight(scores, {"semantic", "correctness"}, 2.0) + Weight(scores, {"evidence", "grader"}, 1.5)
               + Weight(scores, {"reliability"}, 1.0) + Weight(scores, {"routing", "trajectory"}, 0.5)
  {
    var d := DIMENSIONS;
    TotalsSnoc(d[..0], d[0], scores);
    TotalsSnoc(d[..1], d[1], scores);
    TotalsSnoc(d[..2], d[2], scores);
    TotalsSnoc(d[..3], d[3], scores);
    TotalsSnoc(d[..4], d[4], scores);
    TotalsSnoc(d[..5], d[5], scores);
    DimensionsInOrder();
  }

  function Weight(scores: seq<Score>, sources: set<string>, weight: real): real {
    if ValuesFor(scores, sources) == [] then 0.0 else weight
  }

  lemma TotalsSnoc(dims: seq<Dimension>, d: Dimension, scores: seq<Score>)
    ensures Earned(dims + [d], scores) == Earned(dims, scores) + Share(ValuesFor(scores, d.sources), d.weight)
    ensures Available(dims + [d], scores) == Available(dims, scores) + Weight(scores, d.sources, d.weight)
  {
    assert (dims + [d])[..|dims|] == dims;
  }

  /** A list with one numeric score per dimension, under either name where there are two. */
  ghost predicate OneEach(scores: seq<Score>, v: seq<real>) {
    && |scores| == |v| == 6 && (forall i :: 0 <= i < 6 ==> scores[i].score == Some(v[i]))
    && scores[0].dimension == "safety" && scores[1].dimension == "action"
    && scores[2].dimension in ["semantic", "correctness"] && scores[3].dimension in ["evidence", "grader"]
    && scores[4].dimension == "reliability" && scores[5].dimension in ["routing", "trajectory"]
  }

  /** A score alone in its dimension. */
  lemma OnlyOne(a: seq<Score>, x: Score, b: seq<Score>, sources: set<string>)
    requires x.dimension in sources
    requires (forall i :: 0 <= i < |a| ==> a[i].dimension !in sources) && (forall i :: 0 <= i < |b| ==> b[i].dimension !in sources)
    ensures ValuesFor(a + [x] + b, sources) == [Value(x)]
  {
    NoValues(a, sources);
    NoValues(b, sources);
    ValuesConcat(a + [x], b, sources);
    ValuesConcat(a, [x], sources);
    ValuesSnoc([], x, sources);
    assert [] + [x] == [x];
    assert [] + [Value(x)] + [] == [Value(x)];
  }

  /** The one score of a dimension among six of different dimensions. */
  lemma OnlyValue(scores: seq<Score>, sources: set<string>, k: nat)
    requires |scores| == 6 && k < 6 && forall i :: 0 <= i < 6 ==> (scores[i].dimension in sources <==> i == k)
    ensures ValuesFor(scores, sources) == [Value(scores[k])]
  {
    assert scores == scores[..k] + [scores[k]] + scores[k + 1..];
    OnlyOne(scores[..k], scores[k], scores[k + 1..], sources);
  }

  lemma {:induction false} NoValues(scores: seq<Score>, sources: set<string>)
    requires forall i :: 0 <= i < |scores| ==> scores[i].dimension !in sources
    ensures ValuesFor(scores, sources) == []
  {
    if scores != [] {
      NoValues(scores[..|scores| - 1], sources);
    }
  }

  lemma ShareOfOne(v: real, weight: real)
    ensures Share([v], weight) == v * weight
  {
    assert [v][..0] == [];
    assert Sum([v]) == v;
    assert Ratio([v]) == v;
  }

  /** With one score per dimension the quality is the weighted mean with the
      weights 3, 2, 2, 1.5, 1 and 0.5, on a scale of ten. */
  lemma QualityOfSix(scores: seq<Score>, v: seq<real>, round: real -> real)
    requires OneEach(scores, v)
    ensures Quality(scores, round)
            == Some(round((3.0 * v[0] + 2.0 * v[1] + 2.0 * v[2] + 1.5 * v[3] + 1.0 * v[4] + 0.5 * v[5]) / 10.0 * 10.0))
  {
    EarnedBySix(scores, v);
    assert Earned(DIMENSIONS, scores) == 3.0 * v[0] + 2.0 * v[1] + 2.0 * v[2] + 1.5 * v[3] + 1.0 * v[4] + 0.5 * v[5];
  }

  lemma EarnedBySix(scores: seq<Score>, v: seq<real>)
    requires OneEach(scores, v)
    ensures Earned(DIMENSIONS, scores) == v[0] * 3.0 + v[1] * 2.0 + v[2] * 2.0 + v[3] * 1.5 + v[4] * 1.0 + v[5] * 0.5
    ensures Available(DIMENSIONS, scores) == 10.0
  {
    WeightsAre(scores);
    FirstThree(scores, v);
    LastThree(scores, v);
  }

  /** The dimension's share is that of its one value. */
  ghost predicate Counts(scores: seq<Score>, sources: set<string>, value: real, weight: real) {
    Share(ValuesFor(scores, sources), weight) == value * weight && Weight(scores, sources, weight) == weight
  }

  lemma FirstThree(scores: seq<Score>, v: seq<real>)
    requires OneEach(scores, v)
    ensures Counts(scores, {"safety"}, v[0], 3.0) && Counts(scores, {"action"}, v[1], 2.0)
    ensures Counts(scores, {"semantic", "correctness"}, v[2], 2.0)
  {
    Alone(scores, {"safety"}, 0, 3.0);
    Alone(scores, {"action"}, 1, 2.0);
    Alone(scores, {"semantic", "correctness"}, 2, 2.0);
  }

  lemma LastThree(scores: seq<Score>, v: seq<real>)
    requires OneEach(scores, v)
    ensures Counts(scores, {"evidence", "grader"}, v[3], 1.5) && Counts(scores, {"reliability"}, v[4], 1.0)
    ensures Counts(scores, {"routing", "trajectory"}, v[5], 0.5)
  {
    Alone(scores, {"evidence", "grader"}, 3, 1.5);
    Alone(scores, {"reliability"}, 4, 1.0);
    Alone(scores, {"routing", "trajectory"}, 5, 0.5);
  }

  lemma Alone(scores: seq<Score>, sources: set<string>, k: nat, weight: real)
    requires |scores| == 6 && k < 6 && forall i :: 0 <= i < 6 ==> (scores[i].dimension in sources <==> i == k)
    ensures Counts(scores, sources, Value(scores[k]), weight)
  {
    OnlyValue(scores, sources, k);
    ShareOfOne(Value(scores[k]), weight);
  }

  /** Several scores of one dimension count by their average. */
  lemma ShareIsAverage(values: seq<real>, x: real, y: real, weight: real)
    requires values == [x, y]
    ensures Share(values, weight) == (x + y) / 2.0 * weight
  {
    assert values[..1] == [x] && [x][..0] == [];
    assert Sum([x]) == x;
    assert Sum(values) == x + y;
  }

  // ---- What is selected --------------------------------------------------------------------------------------

  /** Which scores count as hard-gate scores of a status, for the P1 score and for
      a dimension: one by one ... */
  lemma SelectedOne(s: Score, status: Status, sources: set<string>)
    ensures HardWith([s], status) == if s.hardGate && s.status == status then [s] else []
    ensures P1Values([s]) == if s.priority == "P1" && s.status != Incomplete && s.score.Some? then [s.score.value] else []
    ensures ValuesFor([s], sources)
            == if s.dimension in sources then [if s.score.Some? then s.score.value else 0.0] else []
  {
    assert [s][..0] == [];
  }

  /** The failures and gaps reported are those of hard-gate scores, counted one by one. */
  lemma CountsAre(scores: seq<Score>, s: Score, round: real -> real, minimum: real, conditional: real)
    ensures var none := Evaluated([], round, minimum, conditional); none.p0Failures == 0 && none.incompleteRequired == 0
    ensures var r, more := Evaluated(scores, round, minimum, conditional), Evaluated(scores + [s], round, minimum, conditional);
            && more.p0Failures == r.p0Failures + (if s.hardGate && s.status == Failed then 1 else 0)
            && more.incompleteRequired == r.incompleteRequired + (if s.hardGate && s.status == Incomplete then 1 else 0)
  {
    HardSnoc(scores, s, Failed);
    HardSnoc(scores, s, Incomplete);
  }

  lemma HardSnoc(scores: seq<Score>, s: Score, status: Status)
    ensures HardWith(scores + [s], status) == HardWith(scores, status) + if s.hardGate && s.status == status then [s] else []
  {
    assert (scores + [s])[..|scores|] == scores;
  }

  /** A score that counts for the P1 score. */
  predicate CountsForP1(s: Score) {
    s.priority == "P1" && (s.status == Passed || s.status == Failed) && s.score.Some?
  }

  /** The P1 score is the average of those that count, and missing when none does. */
  lemma P1Is(a: Score, b: Score, round: real -> real, minimum: real, conditional: real)
    ensures Evaluated([a, b], round, minimum, conditional).p1Score
            == if CountsForP1(a) && CountsForP1(b) then Some((a.score.value + b.score.value) / 2.0)
               else if CountsForP1(a) then a.score
               else if CountsForP1(b) then b.score
               else None
  {
    P1Snoc([], a);
    P1Snoc([a], b);
    assert [] + [a] == [a] && [a] + [b] == [a, b];
    if CountsForP1(a) && CountsForP1(b) {
      var values := [a.score.value] + [b.score.value];
      assert P1Values([a, b]) == values;
      ShareIsAverage(values, a.score.value, b.score.value, 1.0);
    } else if CountsForP1(a) {
      ShareOfOne(a.score.value, 1.0);
    } else if CountsForP1(b) {
      ShareOfOne(b.score.value, 1.0);
    }
  }

  lemma P1Snoc(scores: seq<Score>, s: Score)
    ensures P1Values(scores + [s]) == P1Values(scores) + if CountsForP1(s) then [s.score.value] else []
  {
    assert (scores + [s])[..|scores|] == scores;
  }

  lemma {:induction false} HardInOrder(a: seq<Score>, b: seq<Score>, status: Status)
    ensures HardWith(a + b, status) == HardWith(a, status) + HardWith(b, status)
  {
    if b == [] {
      assert a + b == a;
    } else {
      HardInOrder(a, b[..|b| - 1], status);
      assert (a + b)[..|a + b| - 1] == a + b[..|b| - 1];
    }
  }

  lemma {:induction false} P1InOrder(a: seq<Score>, b: seq<Score>)
    ensures P1Values(a + b) == P1Values(a) + P1Values(b)
  {
    if b == [] {
      assert a + b == a;
    } else {
      P1InOrder(a, b[..|b| - 1]);
      assert (a + b)[..|a + b| - 1] == a + b[..|b| - 1];
    }
  }

  /** ... and list by list, in order. */
  lemma SelectedInOrder(a: seq<Score>, b: seq<Score>, status: Status, sources: set<string>)
    ensures HardWith(a + b, status) == HardWith(a, status) + HardWith(b, status)
    ensures P1Values(a + b) == P1Values(a) + P1Values(b)
    ensures ValuesFor(a + b, sources) == ValuesFor(a, sources) + ValuesFor(b, sources)
  {
    HardInOrder(a, b, status);
    P1InOrder(a, b);
    ValuesConcat(a, b, sources);
  }

  /** Each reason is listed once, in order of first appearance. */
  lemma {:induction false} ReasonsAre(scores: seq<Score>)
    ensures forall r :: r in Reasons(scores) <==> exists s :: s in scores && s.reason == r
    ensures forall i, j :: 0 <= i < j < |Reasons(scores)| ==> Reasons(scores)[i] != Reasons(scores)[j]
  {
    if scores != [] {
      var front, last := scores[..|scores| - 1], scores[|scores| - 1];
      ReasonsAre(front);
      assert scores == front + [last];
      forall r
        ensures r in Reasons(scores) <==> exists s :: s in scores && s.reason == r
      {
        assert (exists s :: s in scores && s.reason == r) <==> (exists s :: s in front && s.reason == r) || last.reason == r;
      }
    }
  }

  /** More scores only add reasons at the end. */
  lemma {:induction false} ReasonsGrow(a: seq<Score>, b: seq<Score>)
    ensures Reasons(a) <= Reasons(a + b)
  {
    if b == [] {
      assert a + b == a;
    } else {
      ReasonsGrow(a, b[..|b| - 1]);
      assert (a + b)[..|a + b| - 1] == a + b[..|b| - 1];
    }
  }

  /** The part of one dimension, by name. */
  predicate PartIs(parts: map<string, real>, name: string, values: seq<real>, weight: real, round: real -> real) {
    (name in parts <==> values != []) && (name in parts ==> parts[name] == round(Share(values, weight)))
  }

  lemma PartsSnoc(dims: seq<Dimension>, d: Dimension, scores: seq<Score>, round: real -> real)
    ensures Parts(dims + [d], scores, round)
            == var values := ValuesFor(scores, d.sources);
               if values == [] then Parts(dims, scores, round) else Parts(dims, scores, round)[d.name := round(Share(values, d.weight))]
  {
    assert (dims + [d])[..|dims|] == dims;
  }

  lemma FirstParts(scores: seq<Score>, round: real -> real)
    ensures var parts := Parts(DIMENSIONS[..3], scores, round);
            && PartIs(parts, "safety", ValuesFor(scores, {"safety"}), 3.0, round)
            && PartIs(parts, "action", ValuesFor(scores, {"action"}), 2.0, round)
            && PartIs(parts, "correctness", ValuesFor(scores, {"semantic", "correctness"}), 2.0, round)
            && parts.Keys <= {"safety", "action", "correctness"}
  {
    var d := DIMENSIONS;
    PartsSnoc(d[..0], d[0], scores, round);
    PartsSnoc(d[..1], d[1], scores, round);
    PartsSnoc(d[..2], d[2], scores, round);
    DimensionsInOrder();
  }

  /** The parts reported, by the names of the dimensions. */
  lemma PartsAre(scores: seq<Score>, round: real -> real)
    ensures var parts := Parts(DIMENSIONS, scores, round);
            && PartIs(parts, "safety", ValuesFor(scores, {"safety"}), 3.0, round)
            && PartIs(parts, "action", ValuesFor(scores, {"action"}), 2.0, round)
            && PartIs(parts, "correctness", ValuesFor(scores, {"semantic", "correctness"}), 2.0, round)
            && PartIs(parts, "evidence", ValuesFor(scores, {"evidence", "grader"}), 1.5, round)
            && PartIs(parts, "reliability", ValuesFor(scores, {"reliability"}), 1.0, round)
            && PartIs(parts, "efficiency", ValuesFor(scores, {"routing", "trajectory"}), 0.5, round)
  {
    var d := DIMENSIONS;
    FirstParts(scores, round);
    PartsSnoc(d[..3], d[3], scores, round);
    PartsSnoc(d[..4], d[4], scores, round);
    PartsSnoc(d[..5], d[5], scores, round);
    DimensionsInOrder();
  }
}
