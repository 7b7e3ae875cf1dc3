/** The classifiers of external_intelligence_engine.js that turn one fused
    estimate into a betting recommendation, a risk tier and a data-quality
    bucket. */
module Classifier {
  import opened Wrappers
  import opened Ensemble

  /** `patterns.winProbabilityThreshold`. */
  const WinProbabilityThreshold: real := 0.65
  /** Below this confidence every match is avoided. */
  const MinConfidence: real := 0.6

  datatype Action = Avoid | BetTeam1 | BetTeam2 | Monitor

  /** The `'high'`/`'medium'`/`'low'` tiers shared by the recommendation
      confidence, the risk level and the data-quality level. */
  datatype Level = High | Medium | Low

  /** The reason text of a recommendation, without its formatting: a bet
      quotes the probability it is based on. */
  datatype Reason = LowConfidence | HighProbability(probability: real) | TooClose

  /** `{action, reason, confidence}`; an `avoid` carries no confidence. */
  datatype Recommendation = Recommendation(action: Action, reason: Reason, confidence: Option<Level>)

  predicate IsBet(a: Action) {
    a == BetTeam1 || a == BetTeam2
  }

  /** `generateRecommendation`: avoid below confidence 0.6, whatever the
      probabilities; otherwise bet on team 1, then team 2, when its
      probability exceeds 0.65, and monitor when neither does. */
  function GenerateRecommendation(e: Estimate): (r: Recommendation)
    ensures r.action == Avoid <==> e.confidence < MinConfidence
    ensures r.action == Avoid ==> r.reason == LowConfidence && r.confidence == None
    ensures r.action == BetTeam1 ==> r.reason == HighProbability(e.team1Win) && r.confidence == Some(High)
    ensures r.action == BetTeam2 ==> r.reason == HighProbability(e.team2Win) && r.confidence == Some(High)
    ensures r.action == Monitor ==> r.reason == TooClose && r.confidence == Some(Medium)
  {
    if e.confidence < MinConfidence then
      Recommendation(Avoid, LowConfidence, None)
    else if e.team1Win > WinProbabilityThreshold then
      Recommendation(BetTeam1, HighProbability(e.team1Win), Some(High))
    else if e.team2Win > WinProbabilityThreshold then
      Recommendation(BetTeam2, HighProbability(e.team2Win), Some(High))
    else
      Recommendation(Monitor, TooClose, Some(Medium))
  }

  /** An estimate whose three shares sum to 1, as `Fuse` produces. */
  predicate Normalised(e: Estimate) {
    e.team1Win >= 0.0 && e.team2Win >= 0.0 && e.draw >= 0.0 && e.team1Win + e.team2Win + e.draw == 1.0
  }

  /** On a normalised estimate at most one team can exceed 0.65, so the
      team-1-first order of the tests decides nothing: a confident
      estimate bets on exactly the team above the threshold, which is the
      more probable team, and monitors when there is none. */
  lemma RecommendationIsSymmetric(e: Estimate)
    requires Normalised(e)
    ensures GenerateRecommendation(e).action == BetTeam1
            <==> e.confidence >= MinConfidence && e.team1Win > WinProbabilityThreshold
    ensures GenerateRecommendation(e).action == BetTeam2
            <==> e.confidence >= MinConfidence && e.team2Win > WinProbabilityThreshold
    ensures GenerateRecommendation(e).action == Monitor
            <==> e.confidence >= MinConfidence && e.team1Win <= WinProbabilityThreshold
                 && e.team2Win <= WinProbabilityThreshold
    ensures GenerateRecommendation(e).action == BetTeam1 ==> e.team1Win > e.team2Win
    ensures GenerateRecommendation(e).action == BetTeam2 ==> e.team2Win > e.team1Win
  {
  }

  function MaxProbability(e: Estimate): real {
    Max(e.team1Win, e.team2Win)
  }

  /** `assessRiskLevel`. */
  function AssessRiskLevel(e: Estimate): (level: Level)
    ensures level == Low <==> e.confidence > 0.8 && MaxProbability(e) > 0.7
    ensures level == Medium <==> !(e.confidence > 0.8 && MaxProbability(e) > 0.7)
                                 && e.confidence > 0.6 && MaxProbability(e) > 0.6
  {
    var maxProb := MaxProbability(e);
    if e.confidence > 0.8 && maxProb > 0.7 then Low
    else if e.confidence > 0.6 && maxProb > 0.6 then Medium
    else High
  }

  function RiskRank(level: Level): nat {
    match level
    case Low => 0
    case Medium => 1
    case High => 2
  }

  /** More confidence or a larger leading probability never raises the
      risk tier. */
  lemma RiskIsMonotone(e: Estimate, e': Estimate)
    requires e'.confidence >= e.confidence && MaxProbability(e') >= MaxProbability(e)
    ensures RiskRank(AssessRiskLevel(e')) <= RiskRank(AssessRiskLevel(e))
  {
  }

  /** A low-risk estimate is always a bet, on its more probable team:
      confidence above 0.8 passes the 0.6 gate and a leading probability
      above 0.7 passes the 0.65 threshold. */
  lemma LowRiskIsBet(e: Estimate)
    requires Normalised(e) && AssessRiskLevel(e) == Low
    ensures IsBet(GenerateRecommendation(e).action)
    ensures GenerateRecommendation(e).action == BetTeam1 <==> e.team1Win > e.team2Win
    ensures GenerateRecommendation(e).confidence == Some(High)
  {
    RecommendationIsSymmetric(e);
  }

  /** `{score, level}` of `assessMatchDataQuality`, before the score is
      formatted. */
  datatype DataQuality = DataQuality(score: real, level: Level)

  /** `assessMatchDataQuality`: 0.3 for more than two odds entries, 0.3
      for any ML prediction, 0.2 for a pattern analysis and 0.2 for any
      traffic record; high above 0.7, medium above 0.4. */
  function AssessMatchDataQuality(d: MatchData): (q: DataQuality)
    ensures 0.0 <= q.score <= 1.0
    ensures q.level == High <==>
      |d.externalOdds| > 2 && |d.mlPredictions| > 0 && (d.patterns.Some? || |d.trafficData| > 0)
    ensures q.level == Low <==>
      (|d.externalOdds| <= 2 && |d.mlPredictions| == 0)
      || ((|d.externalOdds| > 2) != (|d.mlPredictions| > 0) && d.patterns.None? && |d.trafficData| == 0)
  {
    var score := (if |d.externalOdds| > 2 then 0.3 else 0.0)
               + (if |d.mlPredictions| > 0 then 0.3 else 0.0)
               + (if d.patterns.Some? then 0.2 else 0.0)
               + (if |d.trafficData| > 0 then 0.2 else 0.0);
    DataQuality(score, if score > 0.7 then High else if score > 0.4 then Medium else Low)
  }
}
