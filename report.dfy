/** The per-match loop of `calculateWinProbabilities` and the parts of
    the intelligence report built from its result in
    external_intelligence_engine.js: the summary counts, the overall
    recommendations, the risk assessment and the cross-source patterns. */
module IntelligenceReport {
  import opened Wrappers
  import opened Text
  import opened Ordered
  import opened Ensemble
  import opened Classifier

  /** A scraped match; `teams` is absent when none were found. */
  datatype Match = Match(teams: Option<seq<string>>)

  /** The gathered intelligence the loop reads. The pattern analysis is
      always an object by the time the loop runs. */
  datatype Intelligence = Intelligence(
    externalOdds: seq<OddsEntry>,
    mlPredictions: seq<MlPrediction>,
    patternAnalysis: PatternAnalysis,
    decryptedTraffic: seq<TrafficRecord>)

  /** `${team1} vs ${team2}`. */
  function MatchKey(team1: string, team2: string): string {
    team1 + " vs " + team2
  }

  /** The loop skips a match without at least two teams. */
  predicate HasTeams(m: Match) {
    m.teams.Some? && |m.teams.value| >= 2
  }

  // ---------------------------------------------------------------------
  // The traffic filter

  /** Reading `.includes` of `JSON.stringify(undefined)` throws a
      `TypeError`. */
  datatype Failure = TypeError

  /** The traffic filter of `calculateWinProbabilities` as written,
      `t.data && text.includes(team1) || text.includes(team2)`, which
      parses as `(t.data && …) || …`: a record without `data` reaches the
      second test, whose `JSON.stringify(undefined)` has no `includes`. */
  function TrafficFilterAsWritten(rs: seq<TrafficRecord>, team1: string, team2: string)
    : Result<seq<TrafficRecord>, Failure>
  {
    if rs == [] then Ok([])
    else
      var t := rs[0];
      var rest := TrafficFilterAsWritten(rs[1..], team1, team2);
      if t.data.Some? && Contains(t.data.value, team1) then
        (if rest.Ok? then Ok([t] + rest.value) else rest)
      else if t.data.None? then Err(TypeError)
      else if Contains(t.data.value, team2) then
        (if rest.Ok? then Ok([t] + rest.value) else rest)
      else rest
  }

  /** A record is about the match when it has data whose JSON text names
      either team. */
  predicate AboutMatch(t: TrafficRecord, team1: string, team2: string) {
    t.data.Some? && (Contains(t.data.value, team1) || Contains(t.data.value, team2))
  }

  /** The traffic filter as evidently intended, `t.data && (… || …)`. */
  function TrafficFor(rs: seq<TrafficRecord>, team1: string, team2: string): (r: seq<TrafficRecord>)
    ensures HasData(r)
    ensures forall t :: t in r <==> t in rs && AboutMatch(t, team1, team2)
  {
    Filter(rs, t => AboutMatch(t, team1, team2))
  }

  /** As written, the filter fails exactly when some record has no data,
      and otherwise keeps the same records as the intended filter. */
  lemma {:induction false} TrafficFilterAgrees(rs: seq<TrafficRecord>, team1: string, team2: string)
    ensures TrafficFilterAsWritten(rs, team1, team2).Err?
            <==> exists i :: 0 <= i < |rs| && rs[i].data.None?
    ensures TrafficFilterAsWritten(rs, team1, team2).Ok?
            ==> TrafficFilterAsWritten(rs, team1, team2).value == TrafficFor(rs, team1, team2)
  {
    if rs != [] {
      TrafficFilterAgrees(rs[1..], team1, team2);
      assert forall i :: 1 <= i < |rs| ==> rs[i] == rs[1..][i - 1];
      if TrafficFilterAsWritten(rs[1..], team1, team2).Err? {
        var i :| 0 <= i < |rs[1..]| && rs[1..][i].data.None?;
        assert rs[i + 1].data.None?;
      }
    }
  }

  /** A single record without data makes the whole calculation throw,
      where the intended filter would simply drop it. */
  lemma TrafficFilterThrowsWithoutData()
    ensures TrafficFilterAsWritten([TrafficRecord("tls", "http", None)], "Arsenal", "Chelsea") == Err(TypeError)
    ensures TrafficFor([TrafficRecord("tls", "http", None)], "Arsenal", "Chelsea") == []
  {
    var rs := [TrafficRecord("tls", "http", None)];
    assert rs[1..] == [];
    assert Filter(rs[1..], t => AboutMatch(t, "Arsenal", "Chelsea")) == [];
  }

  // ---------------------------------------------------------------------
  // One match

  /** The data gathered for one match: the odds and predictions filed
      under its key, the pattern analysis, and the traffic about it. */
  function MatchDataFor(intel: Intelligence, team1: string, team2: string): (d: MatchData)
    ensures forall e :: e in d.externalOdds <==> e in intel.externalOdds && e.matchKey == MatchKey(team1, team2)
    ensures forall p :: p in d.mlPredictions <==> p in intel.mlPredictions && p.matchKey == MatchKey(team1, team2)
    ensures d.patterns == Some(intel.patternAnalysis)
    ensures d.trafficData == TrafficFor(intel.decryptedTraffic, team1, team2) && HasData(d.trafficData)
  {
    var key := MatchKey(team1, team2);
    MatchData(
      Filter(intel.externalOdds, (e: OddsEntry) => e.matchKey == key),
      Filter(intel.mlPredictions, (p: MlPrediction) => p.matchKey == key),
      Some(intel.patternAnalysis),
      TrafficFor(intel.decryptedTraffic, team1, team2))
  }

  /** A match's odds and predictions keep every entry filed under its key
      as often as it occurs, so a repeated entry weighs in the means as
      often as it was fetched, and no entry filed under another key. */
  lemma MatchDataCounts(intel: Intelligence, team1: string, team2: string, e: OddsEntry, p: MlPrediction)
    ensures var d := MatchDataFor(intel, team1, team2);
      multiset(d.externalOdds)[e] == if e.matchKey == MatchKey(team1, team2) then multiset(intel.externalOdds)[e] else 0
    ensures var d := MatchDataFor(intel, team1, team2);
      multiset(d.mlPredictions)[p] == if p.matchKey == MatchKey(team1, team2) then multiset(intel.mlPredictions)[p] else 0
  {
    var key := MatchKey(team1, team2);
    FilterCounts(intel.externalOdds, (x: OddsEntry) => x.matchKey == key, e);
    FilterCounts(intel.mlPredictions, (x: MlPrediction) => x.matchKey == key, p);
  }

  /** Odds fetched in two batches are filed for a match in fetch order:
      the match's entries of the first batch, then those of the second. */
  lemma MatchOddsKeepOrder(intel: Intelligence, a: seq<OddsEntry>, b: seq<OddsEntry>, team1: string, team2: string)
    requires intel.externalOdds == a + b
    ensures MatchDataFor(intel, team1, team2).externalOdds
         == MatchDataFor(intel.(externalOdds := a), team1, team2).externalOdds
          + MatchDataFor(intel.(externalOdds := b), team1, team2).externalOdds
  {
    var key := MatchKey(team1, team2);
    FilterAppend(a, b, (x: OddsEntry) => x.matchKey == key);
  }

  datatype TeamProbability = TeamProbability(name: string, winProbability: real, confidence: real, factors: seq<Factor>)

  /** The record stored under a match key. */
  datatype MatchProbability = MatchProbability(
    team1: TeamProbability, team2: TeamProbability, drawProbability: real,
    recommendation: Recommendation, riskLevel: Level, dataQuality: DataQuality)

  /** The record built from an estimate and the match data. */
  function Record(d: MatchData, e: Estimate, team1: string, team2: string): MatchProbability {
    MatchProbability(
      TeamProbability(team1, e.team1Win, e.confidence, e.team1Factors),
      TeamProbability(team2, e.team2Win, e.confidence, e.team2Factors),
      e.draw, GenerateRecommendation(e), AssessRiskLevel(e), AssessMatchDataQuality(d))
  }

  /** The record `calculateWinProbabilities` stores for one match. */
  function ProbabilityOf(intel: Intelligence, team1: string, team2: string): MatchProbability {
    var d := MatchDataFor(intel, team1, team2);
    Record(d, Fuse(d, team1, team2), team1, team2)
  }

  /** A low-risk record leads with more than 0.7 and bets on its more
      probable team. */
  predicate LowRiskBet(p: MatchProbability) {
    && Max(p.team1.winProbability, p.team2.winProbability) > 0.7
    && (p.recommendation.action == BetTeam1 <==> p.team1.winProbability > p.team2.winProbability)
  }

  /** Each stored record is normalised, a low-risk record is a bet on
      its more probable team, and a record is confident above 0.7 only
      when ML predictions for the match average above 0.7. */
  lemma ProbabilityClassified(intel: Intelligence, team1: string, team2: string)
    ensures var p := ProbabilityOf(intel, team1, team2);
      && p.team1.winProbability + p.team2.winProbability + p.drawProbability == 1.0
      && (p.riskLevel == Low ==> IsBet(p.recommendation.action) && p.recommendation.confidence == Some(High))
      && (p.riskLevel == Low ==> LowRiskBet(p))
      && p.dataQuality.score >= 0.2
    ensures var d := MatchDataFor(intel, team1, team2);
      ProbabilityOf(intel, team1, team2).team1.confidence > 0.7
      ==> |d.mlPredictions| > 0 && MlScore(d.mlPredictions).confidence > 0.7
  {
    var d := MatchDataFor(intel, team1, team2);
    var e := Fuse(d, team1, team2);
    assert ProbabilityOf(intel, team1, team2) == Record(d, e, team1, team2);
    assert Normalised(e);
    if AssessRiskLevel(e) == Low {
      LowRiskIsBet(e);
    }
  }

  // ---------------------------------------------------------------------
  // The per-match loop

  function Team1(m: Match): string
    requires HasTeams(m)
  {
    m.teams.value[0]
  }

  function Team2(m: Match): string
    requires HasTeams(m)
  {
    m.teams.value[1]
  }

  /** The object after the loop has stored `value(team1, team2)` under
      the key of each match of `ms` with two teams, a later match with the
      same key overwriting the earlier entry in place. */
  function StoreAll<V(!new)>(ms: seq<Match>, value: (string, string) -> V): Entries<string, V> {
    if ms == [] then []
    else
      var acc := StoreAll(ms[..|ms| - 1], value);
      var m := ms[|ms| - 1];
      if HasTeams(m) then Put(acc, MatchKey(Team1(m), Team2(m)), value(Team1(m), Team2(m))) else acc
  }

  /** The probabilities object of `calculateWinProbabilities`. */
  function WinProbabilities(ms: seq<Match>, intel: Intelligence): Entries<string, MatchProbability> {
    StoreAll(ms, (team1, team2) => ProbabilityOf(intel, team1, team2))
  }

  /** The per-match loop of `calculateWinProbabilities`. */
  method CalculateWinProbabilities(ms: seq<Match>, intel: Intelligence)
    returns (probabilities: Entries<string, MatchProbability>)
    ensures probabilities == WinProbabilities(ms, intel)
  {
    ghost var value := (team1, team2) => ProbabilityOf(intel, team1, team2);
    probabilities := [];
    for i := 0 to |ms|
      invariant probabilities == StoreAll(ms[..i], value)
    {
      assert ms[..i + 1][..i] == ms[..i];
      var m := ms[i];
      if !HasTeams(m) {
        continue;
      }
      var team1, team2 := m.teams.value[0], m.teams.value[1];
      var matchKey := MatchKey(team1, team2);
      var matchData := MatchDataFor(intel, team1, team2);
      var probability := CalculateEnsembleProbability(matchData, team1, team2);
      probabilities := Put(probabilities, matchKey, Record(matchData, probability, team1, team2));
    }
    assert ms[..|ms|] == ms;
  }

  /** The entry was stored for some match of `ms` with two teams. */
  ghost predicate Stored<V>(ms: seq<Match>, value: (string, string) -> V, e: (string, V)) {
    exists j :: 0 <= j < |ms| && HasTeams(ms[j]) && e.0 == MatchKey(Team1(ms[j]), Team2(ms[j]))
                && e.1 == value(Team1(ms[j]), Team2(ms[j]))
  }

  /** The keys of the matches with two teams. */
  function KeysOf(ms: seq<Match>): set<string> {
    set j | 0 <= j < |ms| && HasTeams(ms[j]) :: MatchKey(Team1(ms[j]), Team2(ms[j]))
  }

  /** The keys are distinct and are exactly the keys of the matches with
      two teams; every entry holds the value computed for a match with
      that key. */
  lemma {:induction false} StoreAllShape<V(!new)>(ms: seq<Match>, value: (string, string) -> V)
    ensures DistinctKeys(StoreAll(ms, value))
    ensures KeySet(StoreAll(ms, value)) == KeysOf(ms)
    ensures forall i :: 0 <= i < |StoreAll(ms, value)| ==> Stored(ms, value, StoreAll(ms, value)[i])
  {
    if ms != [] {
      var init := ms[..|ms| - 1];
      var m := ms[|ms| - 1];
      var acc := StoreAll(init, value);
      StoreAllShape(init, value);
      assert forall j :: 0 <= j < |init| ==> init[j] == ms[j];
      StoredExtends(init, ms, value);
      if HasTeams(m) {
        var k, v := MatchKey(Team1(m), Team2(m)), value(Team1(m), Team2(m));
        PutEntries(acc, k, v);
        assert Stored(ms, value, (k, v)) by {
          assert ms[|ms| - 1] == m;
        }
        forall i | 0 <= i < |Put(acc, k, v)|
          ensures Stored(ms, value, Put(acc, k, v)[i])
        {
          if Put(acc, k, v)[i] != (k, v) {
            assert Stored(init, value, acc[i]);
          }
        }
        KeysOfAppend(init, m);
      } else {
        forall i | 0 <= i < |acc|
          ensures Stored(ms, value, acc[i])
        {
          assert Stored(init, value, acc[i]);
        }
        KeysOfAppend(init, m);
      }
    }
  }

  /** What was stored for a prefix was stored for the whole list. */
  lemma StoredExtends<V>(init: seq<Match>, ms: seq<Match>, value: (string, string) -> V)
    requires |init| <= |ms| && init == ms[..|init|]
    ensures forall e :: Stored(init, value, e) ==> Stored(ms, value, e)
  {
    forall e | Stored(init, value, e)
      ensures Stored(ms, value, e)
    {
      var j :| 0 <= j < |init| && HasTeams(init[j]) && e.0 == MatchKey(Team1(init[j]), Team2(init[j]))
               && e.1 == value(Team1(init[j]), Team2(init[j]));
      assert ms[j] == init[j];
    }
  }

  lemma KeysOfAppend(init: seq<Match>, m: Match)
    ensures KeysOf(init + [m]) == KeysOf(init) + (if HasTeams(m) then {MatchKey(Team1(m), Team2(m))} else {})
  {
    var ms := init + [m];
    assert forall j :: 0 <= j < |init| ==> ms[j] == init[j];
    assert ms[|init|] == m;
  }

  /** Assignment semantics: the record under a key is the one computed
      for the last match with that key. */
  lemma LastMatchWins(ms: seq<Match>, intel: Intelligence, d: MatchProbability)
    requires ms != [] && HasTeams(ms[|ms| - 1])
    ensures var m := ms[|ms| - 1];
      Get(WinProbabilities(ms, intel), MatchKey(Team1(m), Team2(m)), d) == ProbabilityOf(intel, Team1(m), Team2(m))
  {
  }

  /** The records of the computed probabilities are each classified as
      `ProbabilityClassified` states. */
  predicate Consistent(p: MatchProbability) {
    && p.team1.winProbability + p.team2.winProbability + p.drawProbability == 1.0
    && (p.riskLevel == Low ==> IsBet(p.recommendation.action) && p.recommendation.confidence == Some(High))
    && (p.riskLevel == Low ==> LowRiskBet(p))
  }

  lemma WinProbabilitiesConsistent(ms: seq<Match>, intel: Intelligence)
    ensures forall i :: 0 <= i < |WinProbabilities(ms, intel)| ==> Consistent(WinProbabilities(ms, intel)[i].1)
    ensures KeySet(WinProbabilities(ms, intel)) == KeysOf(ms)
    ensures DistinctKeys(WinProbabilities(ms, intel))
  {
    var value := (team1, team2) => ProbabilityOf(intel, team1, team2);
    var ps := StoreAll(ms, value);
    StoreAllShape(ms, value);
    forall i | 0 <= i < |ps|
      ensures Consistent(ps[i].1)
    {
      assert Stored(ms, value, ps[i]);
      var j :| 0 <= j < |ms| && HasTeams(ms[j]) && ps[i].0 == MatchKey(Team1(ms[j]), Team2(ms[j]))
               && ps[i].1 == value(Team1(ms[j]), Team2(ms[j]));
      ProbabilityClassified(intel, Team1(ms[j]), Team2(ms[j]));
    }
  }

  // ---------------------------------------------------------------------
  // The report summary

  datatype Summary = Summary(
    totalMatches: nat, externalOddsSources: nat, mlPredictions: nat,
    decryptedDataPoints: nat, highConfidenceMatches: nat)

  /** The number of records whose team-1 confidence exceeds 0.7. */
  function HighConfidenceCount(ps: Entries<string, MatchProbability>): (n: nat)
    ensures n <= |ps|
  {
    if ps == [] then 0
    else HighConfidenceCount(ps[..|ps| - 1]) + (if ps[|ps| - 1].1.team1.confidence > 0.7 then 1 else 0)
  }

  /** A record counted as high-confidence. */
  predicate Confident(e: (string, MatchProbability)) {
    e.1.team1.confidence > 0.7
  }

  /** Counting record by record gives the length of the filtered list. */
  lemma {:induction false} HighConfidenceCountIsFilter(ps: Entries<string, MatchProbability>)
    ensures HighConfidenceCount(ps) == |Filter(ps, Confident)|
    decreases |ps|
  {
    if ps != [] {
      var init, last := ps[..|ps| - 1], ps[|ps| - 1];
      HighConfidenceCountIsFilter(init);
      assert ps == init + [last];
      FilterAppend(init, [last], Confident);
      assert [last][1..] == [];
    }
  }

  /** The `summary` of `generateIntelligenceReport`: the number of
      records, the sizes of the three intelligence lists, and the number
      of records that pass the high-confidence filter, never more than
      the records. */
  function Summarise(intel: Intelligence, ps: Entries<string, MatchProbability>): (s: Summary)
    ensures s.highConfidenceMatches <= s.totalMatches == |ps|
    ensures s.highConfidenceMatches == |Filter(ps, Confident)|
    ensures s.externalOddsSources == |intel.externalOdds| && s.mlPredictions == |intel.mlPredictions|
    ensures s.decryptedDataPoints == |intel.decryptedTraffic|
  {
    HighConfidenceCountIsFilter(ps);
    Summary(|ps|, |intel.externalOdds|, |intel.mlPredictions|, |intel.decryptedTraffic|, HighConfidenceCount(ps))
  }

  /** Without any ML prediction no match is counted as high-confidence:
      only the ML category raises the confidence above 0.5. */
  lemma NoHighConfidenceWithoutMl(ms: seq<Match>, intel: Intelligence)
    requires intel.mlPredictions == []
    ensures Summarise(intel, WinProbabilities(ms, intel)).highConfidenceMatches == 0
  {
    var value := (team1, team2) => ProbabilityOf(intel, team1, team2);
    var ps := StoreAll(ms, value);
    StoreAllShape(ms, value);
    forall i | 0 <= i < |ps|
      ensures ps[i].1.team1.confidence <= 0.7
    {
      assert Stored(ms, value, ps[i]);
      var j :| 0 <= j < |ms| && HasTeams(ms[j]) && ps[i].0 == MatchKey(Team1(ms[j]), Team2(ms[j]))
               && ps[i].1 == value(Team1(ms[j]), Team2(ms[j]));
      ProbabilityClassified(intel, Team1(ms[j]), Team2(ms[j]));
    }
    NoneConfident(ps);
  }

  lemma {:induction false} NoneConfident(ps: Entries<string, MatchProbability>)
    requires forall i :: 0 <= i < |ps| ==> ps[i].1.team1.confidence <= 0.7
    ensures HighConfidenceCount(ps) == 0
    decreases |ps|
  {
    if ps != [] {
      NoneConfident(ps[..|ps| - 1]);
    }
  }

  // ---------------------------------------------------------------------
  // Overall recommendations

  datatype OverallRecommendation = OverallRecommendation(
    matchKey: string, action: Action, confidence: Option<Level>, reason: Reason, priority: Level)

  /** A match is recommended when it is not to be avoided and its risk
      is low. */
  predicate Recommended(p: MatchProbability) {
    p.recommendation.action != Avoid && p.riskLevel == Low
  }

  /** Priority is high for high data quality, medium otherwise. */
  function RecommendationFor(key: string, p: MatchProbability): OverallRecommendation {
    OverallRecommendation(key, p.recommendation.action, p.recommendation.confidence, p.recommendation.reason,
                          if p.dataQuality.level == High then High else Medium)
  }

  /** The recommendations pushed by the `forEach`, in entry order. */
  function Selected(ps: Entries<string, MatchProbability>): seq<OverallRecommendation> {
    if ps == [] then []
    else
      var (key, p) := ps[|ps| - 1];
      Selected(ps[..|ps| - 1]) + (if Recommended(p) then [RecommendationFor(key, p)] else [])
  }

  /** The sort key of the comparator: 1 for high priority, 0 otherwise. */
  function PriorityKey(r: OverallRecommendation): real {
    if r.priority == High then 1.0 else 0.0
  }

  /** `generateOverallRecommendations`. */
  method GenerateOverallRecommendations(ps: Entries<string, MatchProbability>)
    returns (recommendations: seq<OverallRecommendation>)
    ensures recommendations == SortDesc(Selected(ps), PriorityKey)
  {
    var pushed: seq<OverallRecommendation> := [];
    for i := 0 to |ps|
      invariant pushed == Selected(ps[..i])
    {
      assert ps[..i + 1][..i] == ps[..i];
      var (key, data) := ps[i];
      if data.recommendation.action != Avoid && data.riskLevel == Low {
        pushed := pushed + [RecommendationFor(key, data)];
      }
    }
    assert ps[..|ps|] == ps;
    recommendations := SortDesc(pushed, PriorityKey);
  }

  /** The pushed recommendations are exactly those of the recommended
      records. */
  lemma {:induction false} SelectedMembers(ps: Entries<string, MatchProbability>)
    ensures forall r :: r in Selected(ps) <==>
      exists i :: 0 <= i < |ps| && Recommended(ps[i].1) && r == RecommendationFor(ps[i].0, ps[i].1)
  {
    if ps != [] {
      var init := ps[..|ps| - 1];
      SelectedMembers(init);
      assert forall i :: 0 <= i < |init| ==> init[i] == ps[i];
    }
  }

  /** The sort puts every high-priority recommendation before every
      medium one and keeps the entry order within each priority. */
  lemma OverallRecommendationsOrder(ps: Entries<string, MatchProbability>)
    ensures var r := SortDesc(Selected(ps), PriorityKey);
      && multiset(r) == multiset(Selected(ps))
      && (forall i, j :: 0 <= i < j < |r| && r[j].priority == High ==> r[i].priority == High)
      && WithKey(r, PriorityKey, 1.0) == WithKey(Selected(ps), PriorityKey, 1.0)
      && WithKey(r, PriorityKey, 0.0) == WithKey(Selected(ps), PriorityKey, 0.0)
  {
    SortDescStable(Selected(ps), PriorityKey, 1.0);
    SortDescStable(Selected(ps), PriorityKey, 0.0);
  }

  /** Every overall recommendation of the computed probabilities is a
      high-confidence bet: a low-risk estimate always clears both the
      confidence gate and the probability threshold. */
  lemma OverallRecommendationsAreBets(ms: seq<Match>, intel: Intelligence)
    ensures forall r :: r in SortDesc(Selected(WinProbabilities(ms, intel)), PriorityKey)
                        ==> IsBet(r.action) && r.confidence == Some(High)
  {
    var ps := WinProbabilities(ms, intel);
    WinProbabilitiesConsistent(ms, intel);
    SelectedAreBets(ps);
    var sorted := SortDesc(Selected(ps), PriorityKey);
    forall r | r in sorted
      ensures r in Selected(ps)
    {
      assert r in multiset(sorted);
    }
  }

  lemma SelectedAreBets(ps: Entries<string, MatchProbability>)
    requires forall i :: 0 <= i < |ps| ==> Consistent(ps[i].1)
    ensures forall r :: r in Selected(ps) ==> IsBet(r.action) && r.confidence == Some(High)
  {
    SelectedMembers(ps);
  }

  // ---------------------------------------------------------------------
  // Risk assessment

  datatype RiskAssessment = RiskAssessment(
    dataReliability: Level, externalSourceDiversity: Level, mlPredictionAvailable: bool, overallRisk: Level)

  /** `generateRiskAssessment`: reliability is high above 5 traffic
      records, diversity high above 10 odds entries, the ML quality
      available with any prediction; the overall risk is always medium. */
  function GenerateRiskAssessment(intel: Intelligence): (a: RiskAssessment)
    ensures a.dataReliability in {High, Medium} && a.externalSourceDiversity in {High, Medium}
    ensures a.dataReliability == High <==> |intel.decryptedTraffic| > 5
    ensures a.externalSourceDiversity == High <==> |intel.externalOdds| > 10
    ensures a.mlPredictionAvailable <==> |intel.mlPredictions| > 0
    ensures a.overallRisk == Medium
  {
    RiskAssessment(
      if |intel.decryptedTraffic| > 5 then High else Medium,
      if |intel.externalOdds| > 10 then High else Medium,
      |intel.mlPredictions| > 0,
      Medium)
  }

  /** More traffic or more odds never lowers a tier of the assessment. */
  lemma RiskAssessmentIsMonotone(intel: Intelligence, intel': Intelligence)
    requires |intel'.decryptedTraffic| >= |intel.decryptedTraffic| && |intel'.externalOdds| >= |intel.externalOdds|
    ensures GenerateRiskAssessment(intel).dataReliability == High ==> GenerateRiskAssessment(intel').dataReliability == High
    ensures GenerateRiskAssessment(intel).externalSourceDiversity == High
            ==> GenerateRiskAssessment(intel').externalSourceDiversity == High
  {
  }

  // ---------------------------------------------------------------------
  // Cross-source patterns

  datatype Source = ExternalOdds | MlPredictions | DecryptedTraffic

  /** The sources compared, in the order of the source list. */
  const Sources: seq<Source> := [ExternalOdds, MlPredictions, DecryptedTraffic]

  datatype CrossPattern = CrossPattern(sourceA: Source, sourceB: Source, correlation: real, significance: Level)

  /** High above 0.7, medium above 0.4, low otherwise. */
  function Significance(correlation: real): Level {
    if correlation > 0.7 then High else if correlation > 0.4 then Medium else Low
  }

  /** The patterns after the outer loop has finished `i` sources and the
      inner loop has visited the first `j` sources for the next one;
      `draw(k)` is the k-th random correlation. The three lists are always
      present (arrays are truthy, even when empty), so every pair of two
      distinct sources is compared. */
  function Visited(i: nat, j: nat, draw: nat -> real): seq<CrossPattern>
    requires (i < 3 && j <= 3) || (i == 3 && j == 0)
    decreases i, j
  {
    if j == 0 then (if i == 0 then [] else Visited(i - 1, 3, draw))
    else
      var acc := Visited(i, j - 1, draw);
      var a, b := Sources[i], Sources[j - 1];
      if a != b then acc + [CrossPattern(a, b, draw(|acc|), Significance(draw(|acc|)))] else acc
  }

  /** `findCrossSourcePatterns`. */
  method FindCrossSourcePatterns(draw: nat -> real) returns (crossPatterns: seq<CrossPattern>)
    ensures crossPatterns == Visited(3, 0, draw)
  {
    crossPatterns := [];
    for i := 0 to |Sources|
      invariant crossPatterns == Visited(i, 0, draw)
    {
      for j := 0 to |Sources|
        invariant crossPatterns == Visited(i, j, draw)
      {
        var sourceA, sourceB := Sources[i], Sources[j];
        if sourceA != sourceB {
          var correlation := draw(|crossPatterns|);
          crossPatterns := crossPatterns + [CrossPattern(sourceA, sourceB, correlation, Significance(correlation))];
        }
      }
    }
  }

  /** The patterns compare `a` with `b` at some position. */
  predicate Compares(r: seq<CrossPattern>, a: Source, b: Source) {
    exists k :: 0 <= k < |r| && r[k].sourceA == a && r[k].sourceB == b
  }

  /** Exactly the six ordered pairs of distinct sources, each once, in
      the order of the loops, each with its own draw. */
  lemma CrossPatternsAreAllPairs(draw: nat -> real)
    ensures var r := Visited(3, 0, draw);
      && |r| == 6
      && (forall k :: 0 <= k < |r| ==>
            r[k].sourceA != r[k].sourceB && r[k].correlation == draw(k) && r[k].significance == Significance(draw(k)))
      && (forall a, b :: a != b ==> Compares(r, a, b))
      && (forall k, l :: 0 <= k < l < |r| ==> (r[k].sourceA, r[k].sourceB) != (r[l].sourceA, r[l].sourceB))
  {
    var p := (a, b, k) => CrossPattern(a, b, draw(k), Significance(draw(k)));
    assert Visited(0, 3, draw) == [p(ExternalOdds, MlPredictions, 0), p(ExternalOdds, DecryptedTraffic, 1)];
    assert Visited(1, 3, draw) == Visited(1, 0, draw) + [p(MlPredictions, ExternalOdds, 2), p(MlPredictions, DecryptedTraffic, 3)];
    assert Visited(2, 3, draw) == Visited(2, 0, draw) + [p(DecryptedTraffic, ExternalOdds, 4), p(DecryptedTraffic, MlPredictions, 5)];
    var r := Visited(3, 0, draw);
    forall a: Source, b: Source | a != b
      ensures Compares(r, a, b)
    {
      var k := match (a, b)
        case (ExternalOdds, MlPredictions) => 0
        case (ExternalOdds, DecryptedTraffic) => 1
        case (MlPredictions, ExternalOdds) => 2
        case (MlPredictions, DecryptedTraffic) => 3
        case (DecryptedTraffic, ExternalOdds) => 4
        case (DecryptedTraffic, MlPredictions) => 5
        case _ => 0;
      assert r[k].sourceA == a && r[k].sourceB == b;
    }
  }
}
