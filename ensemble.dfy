/** Ensemble probability fusion for one match: the per-category
    analysers and the weighted blend of `calculateEnsembleProbability`
    in external_intelligence_engine.js. */
module Ensemble {
  import opened Wrappers
  import opened Text

  /** A decimal odds value that parsed as a positive number. */
  type Odds = x: real | x > 0.0 witness 1.0

  /** A confidence in [0, 1]. */
  type Unit = x: real | 0.0 <= x <= 1.0

  /** One external odds record: the match key it was fetched for, the
      provider, and its home and away odds. A field is `None` when it is
      missing or empty, the falsy values the fusion skips; a price that is
      present is the positive decimal it parses to. */
  datatype OddsEntry = OddsEntry(matchKey: string, source: string, home: Option<Odds>, away: Option<Odds>)

  /** One ML prediction: `prediction` is "home", "away" or anything else. */
  datatype MlPrediction = MlPrediction(matchKey: string, prediction: string, confidence: Unit, model: string)

  /** One team-form pattern of the pattern-recognition step. */
  datatype FormPattern = FormPattern(matchKey: string, formDifferential: real, confidence: Unit)

  /** The pattern-recognition output; only its team-form list is read by
      the fusion. */
  datatype PatternAnalysis = PatternAnalysis(teamFormPatterns: Option<seq<FormPattern>>)

  /** A decrypted-traffic record; `data` is the JSON text of its payload. */
  datatype TrafficRecord = TrafficRecord(source: string, kind: string, data: Option<string>)

  /** Everything gathered for one match. */
  datatype MatchData = MatchData(
    externalOdds: seq<OddsEntry>,
    mlPredictions: seq<MlPrediction>,
    patterns: Option<PatternAnalysis>,
    trafficData: seq<TrafficRecord>)

  /** The factor names pushed onto the per-team factor lists. */
  datatype Factor = ExternalOddsFactor | MlPredictionFactor | PatternAnalysisFactor | TrafficIntelligenceFactor

  const ExternalIntelWeight: real := 0.3
  const HistoricalDataWeight: real := 0.4
  const MarketSentimentWeight: real := 0.3
  const PatternSignificanceGate: real := 0.3
  const TrafficConfidenceGate: real := 0.4
  const TrafficConfidence: real := 0.3
  const PriorWin: real := 0.5
  const PriorDraw: real := 0.3
  const BaseConfidence: real := 0.5

  function Max(a: real, b: real): real {
    if a >= b then a else b
  }

  function Abs(x: real): real {
    if x >= 0.0 then x else -x
  }

  /** A per-category local score for each team. */
  datatype Scores = Scores(team1: real, team2: real)

  // ---------------------------------------------------------------------
  // External odds

  /** An entry the odds analysis uses: it has both a home and an away price. */
  predicate Usable(e: OddsEntry) {
    e.home.Some? && e.away.Some?
  }

  function UsableCount(es: seq<OddsEntry>): nat {
    if es == [] then 0
    else UsableCount(es[..|es| - 1]) + (if Usable(es[|es| - 1]) then 1 else 0)
  }

  /** The implied home probability 1/home of a usable entry, else 0. */
  function ImpliedHome(e: OddsEntry): real {
    if Usable(e) then 1.0 / e.home.value else 0.0
  }

  function ImpliedAway(e: OddsEntry): real {
    if Usable(e) then 1.0 / e.away.value else 0.0
  }

  function ImpliedHomeSum(es: seq<OddsEntry>): real {
    if es == [] then 0.0 else ImpliedHomeSum(es[..|es| - 1]) + ImpliedHome(es[|es| - 1])
  }

  function ImpliedAwaySum(es: seq<OddsEntry>): real {
    if es == [] then 0.0 else ImpliedAwaySum(es[..|es| - 1]) + ImpliedAway(es[|es| - 1])
  }

  /** The odds category's local score: the mean implied probabilities
      over the usable entries, or 0.5 each when there is none. */
  function OddsScore(es: seq<OddsEntry>): Scores {
    var n := UsableCount(es);
    if n == 0 then Scores(0.5, 0.5)
    else Scores(ImpliedHomeSum(es) / n as real, ImpliedAwaySum(es) / n as real)
  }

  /** `analyzeOddsForProbability`. */
  method AnalyzeOddsForProbability(es: seq<OddsEntry>) returns (s: Scores)
    ensures s == OddsScore(es)
  {
    var totalTeam1, totalTeam2, count := 0.0, 0.0, 0;
    for i := 0 to |es|
      invariant totalTeam1 == ImpliedHomeSum(es[..i])
      invariant totalTeam2 == ImpliedAwaySum(es[..i])
      invariant count == UsableCount(es[..i])
    {
      assert es[..i + 1][..i] == es[..i];
      var e := es[i];
      if e.home.Some? && e.away.Some? {
        totalTeam1 := totalTeam1 + 1.0 / e.home.value;
        totalTeam2 := totalTeam2 + 1.0 / e.away.value;
        count := count + 1;
      }
    }
    assert es[..|es|] == es;
    if count == 0 {
      return Scores(0.5, 0.5);
    }
    s := Scores(totalTeam1 / count as real, totalTeam2 / count as real);
  }

  lemma {:induction false} OddsSumsAppend(a: seq<OddsEntry>, b: seq<OddsEntry>)
    ensures UsableCount(a + b) == UsableCount(a) + UsableCount(b)
    ensures ImpliedHomeSum(a + b) == ImpliedHomeSum(a) + ImpliedHomeSum(b)
    ensures ImpliedAwaySum(a + b) == ImpliedAwaySum(a) + ImpliedAwaySum(b)
    decreases |b|
  {
    if b == [] {
      assert a + b == a;
    } else {
      var b' := b[..|b| - 1];
      assert (a + b)[..|a + b| - 1] == a + b';
      OddsSumsAppend(a, b');
    }
  }

  /** An entry lacking a home or an away price is dropped from the
      average only: wherever it stands, it does not change the score. */
  lemma OddsScoreIgnoresIncomplete(a: seq<OddsEntry>, e: OddsEntry, b: seq<OddsEntry>)
    requires !Usable(e)
    ensures OddsScore(a + [e] + b) == OddsScore(a + b)
  {
    OddsSumsAppend(a + [e], b);
    OddsSumsAppend(a, [e]);
    OddsSumsAppend(a, b);
    assert [e][..0] == [];
  }

  /** `n` copies of `p` added up. */
  function Repeat(n: nat, p: real): real {
    if n == 0 then 0.0 else Repeat(n - 1, p) + p
  }

  lemma {:induction false} RepeatMean(n: nat, p: real)
    requires n > 0
    ensures Repeat(n, p) / n as real == p
  {
    RepeatIsProduct(n, p);
  }

  lemma {:induction false} RepeatIsProduct(n: nat, p: real)
    ensures Repeat(n, p) == n as real * p
  {
    if n > 0 {
      RepeatIsProduct(n - 1, p);
    }
  }

  lemma {:induction false} OddsSumsUniform(es: seq<OddsEntry>, p: real, q: real)
    requires forall i :: 0 <= i < |es| && Usable(es[i]) ==> ImpliedHome(es[i]) == p && ImpliedAway(es[i]) == q
    ensures ImpliedHomeSum(es) == Repeat(UsableCount(es), p)
    ensures ImpliedAwaySum(es) == Repeat(UsableCount(es), q)
    decreases |es|
  {
    if es != [] {
      OddsSumsUniform(es[..|es| - 1], p, q);
    }
  }

  /** When every source that quotes both prices quotes the same ones,
      the odds score is exactly their implied probabilities. */
  lemma OddsScoreConsensus(es: seq<OddsEntry>, h: Odds, w: Odds)
    requires UsableCount(es) > 0
    requires forall i :: 0 <= i < |es| && Usable(es[i]) ==> es[i].home == Some(h) && es[i].away == Some(w)
    ensures OddsScore(es) == Scores(1.0 / h, 1.0 / w)
  {
    OddsSumsUniform(es, 1.0 / h, 1.0 / w);
    RepeatMean(UsableCount(es), 1.0 / h);
    RepeatMean(UsableCount(es), 1.0 / w);
  }

  /** Decimal odds of at least 1 are implied probabilities in (0, 1]. */
  predicate ProperOdds(e: OddsEntry) {
    Usable(e) ==> e.home.value >= 1.0 && e.away.value >= 1.0
  }

  lemma {:induction false} OddsSumsBounds(es: seq<OddsEntry>)
    requires forall i :: 0 <= i < |es| ==> ProperOdds(es[i])
    ensures 0.0 <= ImpliedHomeSum(es) <= UsableCount(es) as real
    ensures 0.0 <= ImpliedAwaySum(es) <= UsableCount(es) as real
    ensures UsableCount(es) > 0 ==> ImpliedHomeSum(es) > 0.0 && ImpliedAwaySum(es) > 0.0
    decreases |es|
  {
    if es != [] {
      OddsSumsBounds(es[..|es| - 1]);
      var e := es[|es| - 1];
      if Usable(e) {
        assert ProperOdds(e);
        assert 0.0 < 1.0 / e.home.value <= 1.0;
        assert 0.0 < 1.0 / e.away.value <= 1.0;
      }
    }
  }

  /** With proper decimal odds the odds score is a pair of probabilities. */
  lemma OddsScoreBounds(es: seq<OddsEntry>)
    requires forall i :: 0 <= i < |es| ==> ProperOdds(es[i])
    ensures 0.0 < OddsScore(es).team1 <= 1.0 && 0.0 < OddsScore(es).team2 <= 1.0
  {
    OddsSumsBounds(es);
  }

  lemma {:induction false} OddsSumsNonNegative(es: seq<OddsEntry>)
    ensures ImpliedHomeSum(es) >= 0.0 && ImpliedAwaySum(es) >= 0.0
    decreases |es|
  {
    if es != [] {
      OddsSumsNonNegative(es[..|es| - 1]);
    }
  }

  // ---------------------------------------------------------------------
  // ML predictions

  function HomeConfidence(ps: seq<MlPrediction>): real {
    if ps == [] then 0.0
    else
      var p := ps[|ps| - 1];
      HomeConfidence(ps[..|ps| - 1]) + (if p.prediction == "home" then p.confidence else 0.0)
  }

  function AwayConfidence(ps: seq<MlPrediction>): real {
    if ps == [] then 0.0
    else
      var p := ps[|ps| - 1];
      AwayConfidence(ps[..|ps| - 1]) + (if p.prediction == "away" then p.confidence else 0.0)
  }

  function TotalConfidence(ps: seq<MlPrediction>): real {
    if ps == [] then 0.0 else TotalConfidence(ps[..|ps| - 1]) + ps[|ps| - 1].confidence
  }

  datatype MlScores = MlScores(team1: real, team2: real, confidence: real)

  /** The ML category's local score: the confidence mass of "home" and of
      "away" votes, and all confidence, each divided by the number of
      predictions. */
  function MlScore(ps: seq<MlPrediction>): MlScores
    requires |ps| > 0
  {
    var n := |ps| as real;
    MlScores(HomeConfidence(ps) / n, AwayConfidence(ps) / n, TotalConfidence(ps) / n)
  }

  /** `analyzeMlPredictions` (called only with a non-empty list). */
  method AnalyzeMlPredictions(ps: seq<MlPrediction>) returns (r: MlScores)
    requires |ps| > 0
    ensures r == MlScore(ps)
  {
    var team1Score, team2Score, totalConfidence := 0.0, 0.0, 0.0;
    for i := 0 to |ps|
      invariant team1Score == HomeConfidence(ps[..i])
      invariant team2Score == AwayConfidence(ps[..i])
      invariant totalConfidence == TotalConfidence(ps[..i])
    {
      assert ps[..i + 1][..i] == ps[..i];
      var p := ps[i];
      if p.prediction == "home" {
        team1Score := team1Score + p.confidence;
      }
      if p.prediction == "away" {
        team2Score := team2Score + p.confidence;
      }
      totalConfidence := totalConfidence + p.confidence;
    }
    assert ps[..|ps|] == ps;
    var n := |ps| as real;
    r := MlScores(team1Score / n, team2Score / n, totalConfidence / n);
  }

  lemma {:induction false} MlSumsBounds(ps: seq<MlPrediction>)
    ensures 0.0 <= HomeConfidence(ps) && 0.0 <= AwayConfidence(ps)
    ensures HomeConfidence(ps) + AwayConfidence(ps) <= TotalConfidence(ps) <= |ps| as real
    decreases |ps|
  {
    if ps != [] {
      MlSumsBounds(ps[..|ps| - 1]);
    }
  }

  /** The two team scores are non-negative, together at most the mean
      confidence, which is itself in [0, 1]. */
  lemma MlScoreBounds(ps: seq<MlPrediction>)
    requires |ps| > 0
    ensures 0.0 <= MlScore(ps).team1 && 0.0 <= MlScore(ps).team2
    ensures MlScore(ps).team1 + MlScore(ps).team2 <= MlScore(ps).confidence <= 1.0
  {
    MlSumsBounds(ps);
    var n := |ps| as real;
    var h, a, t := HomeConfidence(ps), AwayConfidence(ps), TotalConfidence(ps);
    DivideSum(h, a, h + a, n);
    DivideMonotone(h + a, t, n);
    DivideMonotone(t, n, n);
    DivideMonotone(0.0, h, n);
    DivideMonotone(0.0, a, n);
  }

  lemma DivideSum(x: real, y: real, z: real, n: real)
    requires n > 0.0 && x + y == z
    ensures x / n + y / n == z / n
  {
  }

  lemma DivideMonotone(x: real, y: real, n: real)
    requires x <= y && n > 0.0
    ensures x / n <= y / n
  {
    DivideSum(x, y - x, y, n);
  }

  lemma {:induction false} MlSumsPartition(ps: seq<MlPrediction>)
    requires forall i :: 0 <= i < |ps| ==> ps[i].prediction == "home" || ps[i].prediction == "away"
    ensures HomeConfidence(ps) + AwayConfidence(ps) == TotalConfidence(ps)
    decreases |ps|
  {
    if ps != [] {
      MlSumsPartition(ps[..|ps| - 1]);
    }
  }

  /** When every prediction is "home" or "away", the team scores split
      the mean confidence exactly. */
  lemma MlScorePartition(ps: seq<MlPrediction>)
    requires |ps| > 0
    requires forall i :: 0 <= i < |ps| ==> ps[i].prediction == "home" || ps[i].prediction == "away"
    ensures MlScore(ps).team1 + MlScore(ps).team2 == MlScore(ps).confidence
  {
    MlSumsPartition(ps);
    DivideSum(HomeConfidence(ps), AwayConfidence(ps), TotalConfidence(ps), |ps| as real);
  }

  // ---------------------------------------------------------------------
  // Pattern analysis

  /** The pattern's match text mentions both teams. */
  predicate NamesBoth(p: FormPattern, team1: string, team2: string) {
    Contains(p.matchKey, team1) && Contains(p.matchKey, team2)
  }

  /** `teamFormPatterns.find(...)`: the first pattern naming both teams. */
  function FindFormPattern(ps: seq<FormPattern>, team1: string, team2: string): (r: Option<FormPattern>)
    ensures r.None? <==> forall i :: 0 <= i < |ps| ==> !NamesBoth(ps[i], team1, team2)
    ensures r.Some? ==> exists i :: 0 <= i < |ps| && ps[i] == r.value && NamesBoth(ps[i], team1, team2)
                          && forall j :: 0 <= j < i ==> !NamesBoth(ps[j], team1, team2)
  {
    if ps == [] then None
    else if NamesBoth(ps[0], team1, team2) then Some(ps[0])
    else
      var r := FindFormPattern(ps[1..], team1, team2);
      assert forall i :: 1 <= i < |ps| ==> ps[i] == ps[1..][i - 1];
      assert r.Some? ==> exists i :: 0 <= i < |ps| && ps[i] == r.value && NamesBoth(ps[i], team1, team2)
                                     && forall j :: 0 <= j < i ==> !NamesBoth(ps[j], team1, team2) by {
        if r.Some? {
          var k :| 0 <= k < |ps[1..]| && ps[1..][k] == r.value && NamesBoth(ps[1..][k], team1, team2)
                   && forall j :: 0 <= j < k ==> !NamesBoth(ps[1..][j], team1, team2);
          assert ps[k + 1] == r.value;
        }
      }
      r
  }

  datatype PatternScores = PatternScores(team1: real, team2: real, significance: real)

  function MatchingPattern(pa: PatternAnalysis, team1: string, team2: string): Option<FormPattern> {
    match pa.teamFormPatterns
    case None => None
    case Some(ps) => FindFormPattern(ps, team1, team2)
  }

  /** `analyzePatternForMatch`: raises exactly one team's score above the
      0.5 base, by |formDifferential| * 0.2, team 1 for a positive
      differential and team 2 otherwise; the significance is the
      pattern's confidence, or 0 when no pattern names both teams. */
  function AnalyzePatternForMatch(pa: PatternAnalysis, team1: string, team2: string): (r: PatternScores)
    ensures r.team1 >= 0.5 && r.team2 >= 0.5 && (r.team1 == 0.5 || r.team2 == 0.5)
    ensures 0.0 <= r.significance <= 1.0
  {
    match MatchingPattern(pa, team1, team2)
    case None => PatternScores(0.5, 0.5, 0.0)
    case Some(p) =>
      var bump := Abs(p.formDifferential) * 0.2;
      if p.formDifferential > 0.0 then PatternScores(0.5 + bump, 0.5, p.confidence)
      else PatternScores(0.5, 0.5 + bump, p.confidence)
  }

  /** The scores against the pattern found for the two teams: none found
      gives the base, otherwise the bump of |formDifferential| * 0.2 goes to
      the team the sign picks (0 goes to team 2). */
  lemma PatternScoresFromMatch(pa: PatternAnalysis, team1: string, team2: string)
    ensures var r := AnalyzePatternForMatch(pa, team1, team2);
      && (MatchingPattern(pa, team1, team2).None? ==> r == PatternScores(0.5, 0.5, 0.0))
      && (MatchingPattern(pa, team1, team2).Some? ==>
            var p := MatchingPattern(pa, team1, team2).value;
            && r.team1 + r.team2 == 1.0 + Abs(p.formDifferential) * 0.2
            && (p.formDifferential > 0.0 ==> r.team2 == 0.5)
            && (p.formDifferential <= 0.0 ==> r.team1 == 0.5)
            && r.significance == p.confidence)
  {
  }

  // ---------------------------------------------------------------------
  // Decrypted traffic

  predicate HasData(rs: seq<TrafficRecord>) {
    forall i :: 0 <= i < |rs| ==> rs[i].data.Some?
  }

  /** The record's lower-cased text names the team next to "favorite" or
      "strong". */
  predicate Favourable(r: TrafficRecord, team: string)
    requires r.data.Some?
  {
    var text := ToLower(r.data.value);
    Contains(text, ToLower(team)) && (Contains(text, "favorite") || Contains(text, "strong"))
  }

  function FavourableCount(rs: seq<TrafficRecord>, team: string): nat
    requires HasData(rs)
  {
    if rs == [] then 0
    else FavourableCount(rs[..|rs| - 1], team) + (if Favourable(rs[|rs| - 1], team) then 1 else 0)
  }

  datatype TrafficScores = TrafficScores(team1: real, team2: real, confidence: real)

  /** The traffic category's local score: 0.5 plus 0.1 per favourable
      record for each team, at the fixed confidence 0.3. */
  function TrafficScore(rs: seq<TrafficRecord>, team1: string, team2: string): TrafficScores
    requires HasData(rs)
  {
    TrafficScores(0.5 + 0.1 * FavourableCount(rs, team1) as real,
                  0.5 + 0.1 * FavourableCount(rs, team2) as real,
                  TrafficConfidence)
  }

  /** `analyzeTrafficForMatch`. */
  method AnalyzeTrafficForMatch(rs: seq<TrafficRecord>, team1: string, team2: string) returns (r: TrafficScores)
    requires HasData(rs)
    ensures r == TrafficScore(rs, team1, team2)
    ensures r.team1 >= 0.5 && r.team2 >= 0.5 && r.confidence == 0.3
  {
    var team1Sentiment, team2Sentiment, confidence := 0.5, 0.5, 0.3;
    var lower1, lower2 := ToLower(team1), ToLower(team2);
    for i := 0 to |rs|
      invariant team1Sentiment == 0.5 + 0.1 * FavourableCount(rs[..i], team1) as real
      invariant team2Sentiment == 0.5 + 0.1 * FavourableCount(rs[..i], team2) as real
    {
      assert rs[..i + 1][..i] == rs[..i];
      var text := ToLower(rs[i].data.value);
      if Contains(text, lower1) {
        if Contains(text, "favorite") || Contains(text, "strong") {
          team1Sentiment := team1Sentiment + 0.1;
        }
      }
      if Contains(text, lower2) {
        if Contains(text, "favorite") || Contains(text, "strong") {
          team2Sentiment := team2Sentiment + 0.1;
        }
      }
    }
    assert rs[..|rs|] == rs;
    r := TrafficScores(team1Sentiment, team2Sentiment, confidence);
  }

  // ---------------------------------------------------------------------
  // Blending

  /** The running estimate and the weight accumulated so far. */
  datatype Running = Running(team1: real, team2: real, totalWeight: real)

  /** The estimate before any category: 0.5 each, at weight 0. */
  const Prior: Running := Running(PriorWin, PriorWin, 0.0)

  /** The incremental weighted average of the source: `current` has been
      built from `totalWeight` so far, and `local` enters with `weight`. */
  function WeightedUpdate(current: real, totalWeight: real, local: real, weight: real): real
    requires totalWeight >= 0.0 && weight > 0.0
  {
    (current * totalWeight + local * weight) / (totalWeight + weight)
  }

  /** From weight 0 the update is the local score; otherwise it lies on the
      segment between the old value and the local score. */
  lemma WeightedUpdateIsConvex(current: real, totalWeight: real, local: real, weight: real)
    requires totalWeight >= 0.0 && weight > 0.0
    ensures totalWeight == 0.0 ==> WeightedUpdate(current, totalWeight, local, weight) == local
    ensures var n := WeightedUpdate(current, totalWeight, local, weight);
      current <= n <= local || local <= n <= current
  {
    var d := totalWeight + weight;
    var n := WeightedUpdate(current, totalWeight, local, weight);
    assert n * d == current * totalWeight + local * weight;
    assert n - current == (local - current) * weight / d;
    assert 0.0 < weight / d <= 1.0;
    ConvexCombination(current, local, weight / d, n);
  }

  /** One blend step applies the update to both teams and adds the weight. */
  function BlendStep(r: Running, local: Scores, weight: real): Running
    requires r.totalWeight >= 0.0 && weight > 0.0
  {
    Running(WeightedUpdate(r.team1, r.totalWeight, local.team1, weight),
            WeightedUpdate(r.team2, r.totalWeight, local.team2, weight),
            r.totalWeight + weight)
  }

  /** A step from weight 0 replaces the estimate by the local score. */
  lemma BlendStepFromZero(r: Running, local: Scores, weight: real)
    requires r.totalWeight == 0.0 && weight > 0.0
    ensures BlendStep(r, local, weight) == Running(local.team1, local.team2, weight)
  {
    WeightedUpdateIsConvex(r.team1, r.totalWeight, local.team1, weight);
    WeightedUpdateIsConvex(r.team2, r.totalWeight, local.team2, weight);
  }

  /** Each blend step moves each team's estimate onto the segment between
      its old value and the category's local score. */
  lemma BlendStepIsConvex(r: Running, local: Scores, weight: real)
    requires r.totalWeight >= 0.0 && weight > 0.0
    ensures var n := BlendStep(r, local, weight);
      && (r.team1 <= n.team1 <= local.team1 || local.team1 <= n.team1 <= r.team1)
      && (r.team2 <= n.team2 <= local.team2 || local.team2 <= n.team2 <= r.team2)
  {
    WeightedUpdateIsConvex(r.team1, r.totalWeight, local.team1, weight);
    WeightedUpdateIsConvex(r.team2, r.totalWeight, local.team2, weight);
  }

  lemma MultiplyNonNegative(x: real, y: real)
    requires x >= 0.0 && y >= 0.0
    ensures x * y >= 0.0
  {
  }

  lemma ConvexCombination(a: real, b: real, t: real, x: real)
    requires 0.0 <= t <= 1.0 && x - a == (b - a) * t
    ensures a <= x <= b || b <= x <= a
  {
    if a <= b {
      MultiplyNonNegative(b - a, t);
      MultiplyNonNegative(b - a, 1.0 - t);
      assert (b - a) * t == (b - a) - (b - a) * (1.0 - t);
    } else {
      MultiplyNonNegative(a - b, t);
      MultiplyNonNegative(a - b, 1.0 - t);
      assert (a - b) * t == (a - b) - (a - b) * (1.0 - t);
    }
  }

  /** A category's step when it takes part, nothing when it does not. */
  function StepIf(r: Running, local: Option<Scores>, weight: real): Running
    requires r.totalWeight >= 0.0 && weight > 0.0
  {
    match local
    case None => r
    case Some(s) => BlendStep(r, s, weight)
  }

  // ---------------------------------------------------------------------
  // The fused estimate

  /** The pattern category is blended only when its significance
      exceeds 0.3 (and the match data carries a pattern analysis). */
  predicate PatternApplies(d: MatchData, team1: string, team2: string) {
    d.patterns.Some? && AnalyzePatternForMatch(d.patterns.value, team1, team2).significance > PatternSignificanceGate
  }

  /** The traffic category is averaged in only when its confidence
      exceeds 0.4. */
  predicate TrafficApplies(d: MatchData, team1: string, team2: string)
    requires HasData(d.trafficData)
  {
    |d.trafficData| > 0 && TrafficScore(d.trafficData, team1, team2).confidence > TrafficConfidenceGate
  }

  /** The local scores of the three weighted categories, `None` for a
      category that does not take part. */
  datatype Locals = Locals(odds: Option<Scores>, ml: Option<Scores>, pattern: Option<Scores>)

  function LocalsOf(d: MatchData, team1: string, team2: string): Locals {
    Locals(OddsLocal(d), MlLocal(d), PatternLocal(d, team1, team2))
  }

  function OddsLocal(d: MatchData): Option<Scores> {
    if |d.externalOdds| > 0 then Some(OddsScore(d.externalOdds)) else None
  }

  function MlLocal(d: MatchData): Option<Scores> {
    if |d.mlPredictions| > 0 then Some(Scores(MlScore(d.mlPredictions).team1, MlScore(d.mlPredictions).team2)) else None
  }

  function PatternLocal(d: MatchData, team1: string, team2: string): Option<Scores> {
    if PatternApplies(d, team1, team2)
    then var p := AnalyzePatternForMatch(d.patterns.value, team1, team2); Some(Scores(p.team1, p.team2))
    else None
  }

  /** The blend of the weighted categories, in the order the source
      applies them: external odds (0.3), ML predictions (0.4), patterns (0.3). */
  function BlendAll(l: Locals): Running {
    StepIf(StepIf(StepIf(Prior, l.odds, ExternalIntelWeight), l.ml, HistoricalDataWeight), l.pattern, MarketSentimentWeight)
  }

  /** The factors pushed for the weighted categories, in order. */
  function FactorsOf(l: Locals): seq<Factor> {
    Pushed(l.odds, ExternalOddsFactor) + Pushed(l.ml, MlPredictionFactor) + Pushed(l.pattern, PatternAnalysisFactor)
  }

  /** The factor a category pushes when it takes part. */
  function Pushed(local: Option<Scores>, f: Factor): seq<Factor> {
    if local.Some? then [f] else []
  }

  /** The sum of the weights of the categories that take part. */
  function AppliedWeight(l: Locals): real {
    (if l.odds.Some? then ExternalIntelWeight else 0.0)
    + (if l.ml.Some? then HistoricalDataWeight else 0.0)
    + (if l.pattern.Some? then MarketSentimentWeight else 0.0)
  }

  /** The blend's accumulated weight is the sum of the applied weights
      0.3/0.4/0.3, so at most 1; with no category the prior 0.5/0.5 is
      left as it is; the first category that applies replaces the prior
      by its own local score. */
  lemma BlendAllShape(l: Locals)
    ensures BlendAll(l).totalWeight == AppliedWeight(l) <= 1.0
    ensures FactorsOf(l) == [] ==> BlendAll(l) == Prior
    ensures l.odds.Some? ==> StepIf(Prior, l.odds, ExternalIntelWeight) == Running(l.odds.value.team1, l.odds.value.team2, ExternalIntelWeight)
    ensures l.odds.None? && l.ml.Some? ==>
      StepIf(Prior, l.ml, HistoricalDataWeight) == Running(l.ml.value.team1, l.ml.value.team2, HistoricalDataWeight)
    ensures |FactorsOf(l)| == 1 ==> exists s :: (l.odds == Some(s) || l.ml == Some(s) || l.pattern == Some(s))
                                              && BlendAll(l).team1 == s.team1 && BlendAll(l).team2 == s.team2
  {
    if l.odds.Some? {
      BlendStepFromZero(Prior, l.odds.value, ExternalIntelWeight);
    } else if l.ml.Some? {
      BlendStepFromZero(Prior, l.ml.value, HistoricalDataWeight);
    } else if l.pattern.Some? {
      BlendStepFromZero(Prior, l.pattern.value, MarketSentimentWeight);
    }
  }

  /** Blending non-negative local scores keeps the estimate non-negative. */
  lemma BlendAllNonNegative(l: Locals)
    requires l.odds.Some? ==> l.odds.value.team1 >= 0.0 && l.odds.value.team2 >= 0.0
    requires l.ml.Some? ==> l.ml.value.team1 >= 0.0 && l.ml.value.team2 >= 0.0
    requires l.pattern.Some? ==> l.pattern.value.team1 >= 0.0 && l.pattern.value.team2 >= 0.0
    ensures BlendAll(l).team1 >= 0.0 && BlendAll(l).team2 >= 0.0
  {
    var r1 := StepIf(Prior, l.odds, ExternalIntelWeight);
    if l.odds.Some? {
      BlendStepIsConvex(Prior, l.odds.value, ExternalIntelWeight);
    }
    var r2 := StepIf(r1, l.ml, HistoricalDataWeight);
    if l.ml.Some? {
      BlendStepIsConvex(r1, l.ml.value, HistoricalDataWeight);
    }
    if l.pattern.Some? {
      BlendStepIsConvex(r2, l.pattern.value, MarketSentimentWeight);
    }
  }

  /** The blended estimate of one match before normalisation. */
  function Raw(d: MatchData, team1: string, team2: string): Running {
    BlendAll(LocalsOf(d, team1, team2))
  }

  lemma RawNonNegative(d: MatchData, team1: string, team2: string)
    ensures Raw(d, team1, team2).team1 >= 0.0 && Raw(d, team1, team2).team2 >= 0.0
  {
    OddsSumsNonNegative(d.externalOdds);
    if |d.mlPredictions| > 0 {
      MlScoreBounds(d.mlPredictions);
    }
    BlendAllNonNegative(LocalsOf(d, team1, team2));
  }

  /** The fused estimate of one match. */
  datatype Estimate = Estimate(
    team1Win: real, team2Win: real, draw: real, confidence: real,
    team1Factors: seq<Factor>, team2Factors: seq<Factor>)

  /** The confidence: 0.5, raised to the mean ML confidence when that is
      larger; no other category changes it. */
  function FusedConfidence(d: MatchData): real {
    if |d.mlPredictions| > 0 then Max(BaseConfidence, MlScore(d.mlPredictions).confidence) else BaseConfidence
  }

  lemma FusedConfidenceBounds(d: MatchData)
    ensures BaseConfidence <= FusedConfidence(d) <= 1.0
    ensures |d.mlPredictions| > 0 ==> FusedConfidence(d) >= MlScore(d.mlPredictions).confidence
  {
    if |d.mlPredictions| > 0 {
      MlScoreBounds(d.mlPredictions);
    }
  }

  /** Division of team1, team2 and the draw by their total: the three
      shares sum to 1, lie in [0, 1], and keep the order of the two teams. */
  function Normalise(w1: real, w2: real, draw: real, confidence: real, factors: seq<Factor>): (e: Estimate)
    requires w1 >= 0.0 && w2 >= 0.0 && draw > 0.0
    ensures e.team1Win + e.team2Win + e.draw == 1.0
    ensures 0.0 <= e.team1Win <= 1.0 && 0.0 <= e.team2Win <= 1.0 && 0.0 < e.draw <= 1.0
    ensures e.team1Win > e.team2Win <==> w1 > w2
    ensures e.confidence == confidence && e.team1Factors == factors && e.team2Factors == factors
  {
    var total := w1 + w2 + draw;
    Shares(w1, w2, draw, total);
    Estimate(w1 / total, w2 / total, draw / total, confidence, factors, factors)
  }

  lemma Shares(w1: real, w2: real, draw: real, total: real)
    requires w1 >= 0.0 && w2 >= 0.0 && draw > 0.0 && total == w1 + w2 + draw
    ensures w1 / total + w2 / total + draw / total == 1.0
    ensures 0.0 <= w1 / total <= 1.0 && 0.0 <= w2 / total <= 1.0 && 0.0 < draw / total <= 1.0
    ensures w1 / total > w2 / total <==> w1 > w2
  {
    SharesSum(w1, w2, draw, total);
    ShareBounds(w1, total);
    ShareBounds(w2, total);
    ShareBounds(draw, total);
    DivideStrict(w1, w2, total);
    DividePositive(draw, total);
  }

  lemma SharesSum(w1: real, w2: real, draw: real, total: real)
    requires total > 0.0 && total == w1 + w2 + draw
    ensures w1 / total + w2 / total + draw / total == 1.0
  {
    DivideSum(w1, w2, w1 + w2, total);
    DivideSum(w1 + w2, draw, total, total);
  }

  lemma ShareBounds(x: real, total: real)
    requires 0.0 <= x <= total && total > 0.0
    ensures 0.0 <= x / total <= 1.0
  {
    DivideMonotone(0.0, x, total);
    DivideMonotone(x, total, total);
  }

  lemma DivideStrict(x: real, y: real, n: real)
    requires n > 0.0
    ensures x / n > y / n <==> x > y
  {
    if x > y {
      DividePositive(x - y, n);
      DivideSum(y, x - y, x, n);
    } else {
      DivideMonotone(x, y, n);
    }
  }

  lemma DividePositive(x: real, n: real)
    requires x > 0.0 && n > 0.0
    ensures x / n > 0.0
  {
  }

  /** What `calculateEnsembleProbability` returns, before rounding: the
      blend, the traffic average when it applies, then team1, team2 and
      the 0.3 draw each divided by their total. */
  function Fuse(d: MatchData, team1: string, team2: string): (e: Estimate)
    requires HasData(d.trafficData)
    ensures e.team1Win + e.team2Win + e.draw == 1.0
    ensures 0.0 <= e.team1Win <= 1.0 && 0.0 <= e.team2Win <= 1.0 && 0.0 < e.draw <= 1.0
    ensures BaseConfidence <= e.confidence <= 1.0
    ensures e.team1Factors == e.team2Factors
  {
    var b := Raw(d, team1, team2);
    RawNonNegative(d, team1, team2);
    var t := TrafficScore(d.trafficData, team1, team2);
    var applies := TrafficApplies(d, team1, team2);
    var w1 := if applies then (b.team1 + t.team1) * 0.5 else b.team1;
    var w2 := if applies then (b.team2 + t.team2) * 0.5 else b.team2;
    var factors := FactorsOf(LocalsOf(d, team1, team2)) + (if applies then [TrafficIntelligenceFactor] else []);
    FusedConfidenceBounds(d);
    Normalise(w1, w2, PriorDraw, FusedConfidence(d), factors)
  }

  /** The traffic category never takes part: its confidence is fixed at
      0.3 and the gate asks for more than 0.4. The estimate is therefore
      the normalised blend of the three weighted categories (so it
      favours the team the blend favours), and the traffic factor never
      appears. */
  lemma TrafficNeverBlends(d: MatchData, team1: string, team2: string)
    requires HasData(d.trafficData)
    ensures !TrafficApplies(d, team1, team2)
    ensures Fuse(d, team1, team2).team1Win > Fuse(d, team1, team2).team2Win
            <==> Raw(d, team1, team2).team1 > Raw(d, team1, team2).team2
    ensures Fuse(d, team1, team2).team1Factors == FactorsOf(LocalsOf(d, team1, team2))
    ensures TrafficIntelligenceFactor !in Fuse(d, team1, team2).team1Factors
  {
    assert FactorsOf(LocalsOf(d, team1, team2)) + [] == FactorsOf(LocalsOf(d, team1, team2));
  }

  /** `calculateEnsembleProbability`: the weighted categories, then the
      traffic average when it applies, then the division of team1, team2
      and the draw by their total. */
  method CalculateEnsembleProbability(d: MatchData, team1: string, team2: string) returns (e: Estimate)
    requires HasData(d.trafficData)
    ensures e == Fuse(d, team1, team2)
  {
    var team1Win, team2Win, totalWeight, confidence, factors1, factors2 := BlendWeightedCategories(d, team1, team2);
    var draw := PriorDraw;
    ghost var blended := Raw(d, team1, team2);

    // Factor 4: decrypted traffic
    if |d.trafficData| > 0 {
      var traffic := AnalyzeTrafficForMatch(d.trafficData, team1, team2);
      assert traffic.confidence == TrafficConfidence;
      if traffic.confidence > TrafficConfidenceGate {
        team1Win := (team1Win + traffic.team1) * 0.5;
        team2Win := (team2Win + traffic.team2) * 0.5;
        factors1, factors2 := factors1 + [TrafficIntelligenceFactor], factors2 + [TrafficIntelligenceFactor];
      }
    }
    assert team1Win == blended.team1 && team2Win == blended.team2;

    // Normalisation
    var total := team1Win + team2Win + draw;
    FuseUnfolds(d, team1, team2, blended, confidence, factors1, team1Win, team2Win, draw, total);
    e := Estimate(team1Win / total, team2Win / total, draw / total, confidence, factors1, factors2);
  }

  /** The three weighted categories of `calculateEnsembleProbability`, each
      blended into the running estimate when it takes part: the result is
      `Raw`, the fused confidence and the factors pushed. */
  method BlendWeightedCategories(d: MatchData, team1: string, team2: string)
    returns (team1Win: real, team2Win: real, totalWeight: real, confidence: real,
             factors1: seq<Factor>, factors2: seq<Factor>)
    ensures Running(team1Win, team2Win, totalWeight) == Raw(d, team1, team2)
    ensures confidence == FusedConfidence(d)
    ensures factors1 == factors2 == FactorsOf(LocalsOf(d, team1, team2))
  {
    team1Win, team2Win, totalWeight := PriorWin, PriorWin, 0.0;
    confidence := BaseConfidence;
    factors1, factors2 := [], [];
    ghost var r0 := Running(team1Win, team2Win, totalWeight);
    team1Win, team2Win, totalWeight, factors1, factors2 :=
      BlendExternalOdds(d, team1Win, team2Win, totalWeight, factors1, factors2);
    ghost var r1 := Running(team1Win, team2Win, totalWeight);
    team1Win, team2Win, totalWeight, confidence, factors1, factors2 :=
      BlendMlPredictions(d, team1Win, team2Win, totalWeight, confidence, factors1, factors2);
    ghost var r2 := Running(team1Win, team2Win, totalWeight);
    team1Win, team2Win, totalWeight, factors1, factors2 :=
      BlendPatterns(d, team1, team2, team1Win, team2Win, totalWeight, factors1, factors2);
    assert [] + Pushed(OddsLocal(d), ExternalOddsFactor) == Pushed(OddsLocal(d), ExternalOddsFactor);
  }

  /** Factor 1 of `calculateEnsembleProbability`: the external odds, at
      weight 0.3, when there are any. */
  method BlendExternalOdds(d: MatchData, team1Win: real, team2Win: real, totalWeight: real,
                           factors1: seq<Factor>, factors2: seq<Factor>)
    returns (team1Win': real, team2Win': real, totalWeight': real, factors1': seq<Factor>, factors2': seq<Factor>)
    requires totalWeight >= 0.0
    ensures Running(team1Win', team2Win', totalWeight') ==
            StepIf(Running(team1Win, team2Win, totalWeight), OddsLocal(d), ExternalIntelWeight)
    ensures factors1' == factors1 + Pushed(OddsLocal(d), ExternalOddsFactor)
    ensures factors2' == factors2 + Pushed(OddsLocal(d), ExternalOddsFactor)
  {
    team1Win', team2Win', totalWeight', factors1', factors2' := team1Win, team2Win, totalWeight, factors1, factors2;
    if |d.externalOdds| > 0 {
      var odds := AnalyzeOddsForProbability(d.externalOdds);
      team1Win' := WeightedUpdate(team1Win', totalWeight', odds.team1, ExternalIntelWeight);
      team2Win' := WeightedUpdate(team2Win', totalWeight', odds.team2, ExternalIntelWeight);
      totalWeight' := totalWeight' + ExternalIntelWeight;
      factors1', factors2' := factors1' + [ExternalOddsFactor], factors2' + [ExternalOddsFactor];
    } else {
      assert factors1 + [] == factors1 && factors2 + [] == factors2;
    }
  }

  /** Factor 2 of `calculateEnsembleProbability`: the ML predictions, at
      weight 0.4, when there are any; the confidence is raised to their
      mean confidence when that is larger. */
  method BlendMlPredictions(d: MatchData, team1Win: real, team2Win: real, totalWeight: real, confidence: real,
                            factors1: seq<Factor>, factors2: seq<Factor>)
    returns (team1Win': real, team2Win': real, totalWeight': real, confidence': real,
             factors1': seq<Factor>, factors2': seq<Factor>)
    requires totalWeight >= 0.0
    ensures Running(team1Win', team2Win', totalWeight') ==
            StepIf(Running(team1Win, team2Win, totalWeight), MlLocal(d), HistoricalDataWeight)
    ensures confidence' == if |d.mlPredictions| > 0 then Max(confidence, MlScore(d.mlPredictions).confidence) else confidence
    ensures factors1' == factors1 + Pushed(MlLocal(d), MlPredictionFactor)
    ensures factors2' == factors2 + Pushed(MlLocal(d), MlPredictionFactor)
  {
    team1Win', team2Win', totalWeight', confidence', factors1', factors2' :=
      team1Win, team2Win, totalWeight, confidence, factors1, factors2;
    if |d.mlPredictions| > 0 {
      var ml := AnalyzeMlPredictions(d.mlPredictions);
      team1Win' := WeightedUpdate(team1Win', totalWeight', ml.team1, HistoricalDataWeight);
      team2Win' := WeightedUpdate(team2Win', totalWeight', ml.team2, HistoricalDataWeight);
      totalWeight' := totalWeight' + HistoricalDataWeight;
      confidence' := Max(confidence', ml.confidence);
      factors1', factors2' := factors1' + [MlPredictionFactor], factors2' + [MlPredictionFactor];
    } else {
      assert factors1 + [] == factors1 && factors2 + [] == factors2;
    }
  }

  /** Factor 3 of `calculateEnsembleProbability`: the form pattern, at
      weight 0.3, when its significance exceeds 0.3. */
  method BlendPatterns(d: MatchData, team1: string, team2: string,
                       team1Win: real, team2Win: real, totalWeight: real,
                       factors1: seq<Factor>, factors2: seq<Factor>)
    returns (team1Win': real, team2Win': real, totalWeight': real, factors1': seq<Factor>, factors2': seq<Factor>)
    requires totalWeight >= 0.0
    ensures Running(team1Win', team2Win', totalWeight') ==
            StepIf(Running(team1Win, team2Win, totalWeight), PatternLocal(d, team1, team2), MarketSentimentWeight)
    ensures factors1' == factors1 + Pushed(PatternLocal(d, team1, team2), PatternAnalysisFactor)
    ensures factors2' == factors2 + Pushed(PatternLocal(d, team1, team2), PatternAnalysisFactor)
  {
    team1Win', team2Win', totalWeight', factors1', factors2' := team1Win, team2Win, totalWeight, factors1, factors2;
    assert factors1 + [] == factors1 && factors2 + [] == factors2;
    if d.patterns.Some? {
      var pattern := AnalyzePatternForMatch(d.patterns.value, team1, team2);
      if pattern.significance > PatternSignificanceGate {
        team1Win' := WeightedUpdate(team1Win', totalWeight', pattern.team1, MarketSentimentWeight);
        team2Win' := WeightedUpdate(team2Win', totalWeight', pattern.team2, MarketSentimentWeight);
        totalWeight' := totalWeight' + MarketSentimentWeight;
        factors1', factors2' := factors1' + [PatternAnalysisFactor], factors2' + [PatternAnalysisFactor];
      }
    }
  }

  /** `Fuse` spelled out from the blended scores `w1`, `w2`, the draw
      prior, the confidence and the factor list of the weighted categories. */
  lemma FuseUnfolds(d: MatchData, team1: string, team2: string, b: Running,
                    confidence: real, factors: seq<Factor>, w1: real, w2: real, draw: real, total: real)
    requires HasData(d.trafficData)
    requires b == Raw(d, team1, team2) && confidence == FusedConfidence(d)
    requires factors == FactorsOf(LocalsOf(d, team1, team2))
    requires w1 == b.team1 && w2 == b.team2 && draw == PriorDraw && total == w1 + w2 + draw
    ensures total > 0.0
    ensures Fuse(d, team1, team2) == Estimate(w1 / total, w2 / total, draw / total, confidence, factors, factors)
  {
    RawNonNegative(d, team1, team2);
    FusedConfidenceBounds(d);
    assert factors + [] == factors;
    assert Fuse(d, team1, team2) == Normalise(w1, w2, draw, confidence, factors);
    NormaliseUnfolds(w1, w2, draw, confidence, factors, total);
  }

  lemma NormaliseUnfolds(w1: real, w2: real, draw: real, confidence: real, factors: seq<Factor>, total: real)
    requires w1 >= 0.0 && w2 >= 0.0 && draw > 0.0 && total == w1 + w2 + draw
    ensures Normalise(w1, w2, draw, confidence, factors) == Estimate(w1 / total, w2 / total, draw / total, confidence, factors, factors)
  {
  }
}
