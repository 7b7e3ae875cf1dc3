# Betting-intelligence analysis core, in Dafny

This project models the analysis core of a betting-intelligence toolkit and
proves properties of it. It covers four source files.

- **external_intelligence_engine.js** fuses external odds, ML predictions,
  a form pattern and decrypted-traffic snippets into one estimate per
  match. It then classifies the estimate into a recommendation, a risk
  tier and a data-quality bucket, and assembles the overall
  recommendations, the cross-source patterns, the risk assessment and the
  report summary. Modules `Ensemble`, `Classifier` and
  `IntelligenceReport` (files `ensemble.dfy`, `classifier.dfy`,
  `report.dfy`).
- **jackpot_prediction_analyzer.js** extracts team names, buckets odds,
  counts captured jackpot data, and analyses external odds, ML predictions
  and traffic. It also scores data quality and filters and sorts the
  prediction insights. Module `Jackpot` (`jackpot.dfy`).
- **event_detection_system.py** covers the `EventDetector`: its rule list,
  its bounded event history and stats window, and its baseline. It also
  covers the three built-in detection rules and the peak-hour ranking.
  Module `Events` (`events.dfy`).
- **ml_pattern_engine.py** covers the URI classifiers, the per-packet
  counters of `analyze_http_packets`, and the three detectors: rapid odds
  changes, high-frequency endpoints and high betting activity. Module
  `Packets` (`packets.dfy`).

Three support modules hold shared pieces:
- `Wrappers` (`wrappers.dfy`): `Option` and `Result`.
- `Text` (`text.dfy`): the string operations the source relies on (`includes`,
  `split`, `trim`, `/[^\w\s]/g`, ASCII lower-casing).
- `Ordered` (`ordered.dfy`): insertion-ordered dictionaries with JavaScript and
  Python assignment semantics, occurrence counters (`d[k] = (d[k] || 0) + 1`),
  stable descending sorts and top-n selection.

The modelling follows each file's own form:
- Loops that update locals or counters are methods with loop invariants. Each
  is proved equal to a specification function, and the properties are proved
  about that function.
- The two stateful objects are classes whose methods state their whole new
  state: the `EventDetector` and the `results` dictionary of
  `analyze_http_packets` (`Packets.PacketAnalysis`).
- Pure classifiers are functions.

Probabilities, confidences and odds are `real`. Random placeholders are
parameters: the cross-source correlation is a function `draw`, and the numpy
statistics are a function `stats`. Clock readings are parameters too: a
microsecond timestamp per packet. A missing JSON field is `None`.

The two regular expressions of `ml_pattern_engine.py` are written as
deterministic scanners. Each optional part of `match[_-]?(?:id)?[=:]?([0-9]+)`
and `odds?[=:]([0-9.]+)` is taken whenever it is present. Skipping a present
part leaves a character the next part cannot accept, so backtracking can never
find a match the greedy choice misses. The scanners therefore return the
regular expressions' leftmost matches.

## Model

| member | source | states |
|---|---|---|
| Ensemble.AnalyzeOddsForProbability | external_intelligence_engine.js:769-788 | the accumulator loop computes `OddsScore`: the mean of 1/home and 1/away over the entries with both prices, 0.5/0.5 when there is none |
| Ensemble.OddsScoreIgnoresIncomplete | external_intelligence_engine.js:773 | an entry lacking a home or an away price leaves the odds score unchanged wherever it sits in the list |
| Ensemble.OddsScoreConsensus | external_intelligence_engine.js:772-787 | when every usable entry quotes the same prices h and w, the score is exactly (1/h, 1/w) |
| Ensemble.OddsScoreBounds | external_intelligence_engine.js:774-786 | with decimal odds of at least 1, both team scores lie in (0, 1] |
| Ensemble.AnalyzeMlPredictions | external_intelligence_engine.js:791-805 | the accumulator loop computes `MlScore`: the confidence mass of "home" and of "away" and the whole confidence, each divided by the number of predictions |
| Ensemble.MlScoreBounds | external_intelligence_engine.js:794-804 | both team scores are non-negative, their sum is at most the mean confidence, which is at most 1 |
| Ensemble.MlScorePartition | external_intelligence_engine.js:795-803 | when every prediction is "home" or "away" the two team scores add up to the mean confidence |
| Ensemble.FindFormPattern | external_intelligence_engine.js:813-815 | `find` returns None exactly when no pattern's match text names both teams, otherwise a pattern that does |
| Ensemble.AnalyzePatternForMatch | external_intelligence_engine.js:808-826 | both scores are at least 0.5 and at most one is raised; the significance lies in [0, 1] |
| Ensemble.PatternScoresFromMatch | external_intelligence_engine.js:817-822 | no matching pattern gives 0.5/0.5/0; otherwise the bump abs(formDifferential)·0.2 goes to team 1 for a positive differential and to team 2 otherwise (0 included), and the significance is the pattern's confidence |
| Ensemble.AnalyzeTrafficForMatch | external_intelligence_engine.js:829-850 | the loop computes `TrafficScore`; both sentiments are at least 0.5 and the confidence is always 0.3 |
| Ensemble.WeightedUpdateIsConvex | external_intelligence_engine.js:715 | the incremental weighted average from weight 0 is the local score, and otherwise lies between the old value and the local score |
| Ensemble.BlendStepFromZero | external_intelligence_engine.js:708-717 | because `totalWeight` starts at 0, the first category applied replaces the prior by its own local score |
| Ensemble.BlendStepIsConvex | external_intelligence_engine.js:715-738 | each weighted step moves each team's estimate onto the segment between its old value and the category's local score |
| Ensemble.BlendAllShape | external_intelligence_engine.js:704-742 | the accumulated weight is the sum of the applied weights 0.3/0.4/0.3, at most 1; with no category the prior 0.5/0.5 stays; a single category leaves exactly its local score |
| Ensemble.BlendAllNonNegative | external_intelligence_engine.js:713-742 | blending non-negative local scores keeps both estimates non-negative |
| Ensemble.RawNonNegative | external_intelligence_engine.js:703-754 | the blended estimate of any match is non-negative, so the normalising total 0.3 + team1 + team2 is positive |
| Ensemble.FusedConfidenceBounds | external_intelligence_engine.js:707-728 | the confidence is at least 0.5, at most 1, and at least the mean ML confidence when there are predictions |
| Ensemble.Normalise | external_intelligence_engine.js:757-761 | the three shares sum to 1, each lies in [0, 1] with the draw positive, and team 1 leads after the division exactly when it led before |
| Ensemble.Fuse | external_intelligence_engine.js:703-766 | the estimate's three probabilities sum to 1 and lie in [0, 1], its confidence lies in [0.5, 1], and both teams carry the same factor list |
| Ensemble.TrafficNeverBlends | external_intelligence_engine.js:746-753 | the traffic gate (> 0.4) never opens on the fixed confidence 0.3, so the estimate favours the team the weighted blend favours and `traffic_intelligence` never appears among the factors |
| Ensemble.CalculateEnsembleProbability | external_intelligence_engine.js:703-766 | the method, with its local running variables and factor lists, computes `Fuse` |
| Ensemble.BlendWeightedCategories | external_intelligence_engine.js:704-742 | the three weighted category steps leave the blend `Raw`, the confidence `FusedConfidence` and the factors of the categories that took part, in order |
| Ensemble.BlendExternalOdds | external_intelligence_engine.js:713-720 | factor 1 takes part exactly when there are odds entries, at weight 0.3, pushing `external_odds` on both lists |
| Ensemble.BlendMlPredictions | external_intelligence_engine.js:723-731 | factor 2 takes part exactly when there are predictions, at weight 0.4, raising the confidence to the mean ML confidence when larger (never lowering it) |
| Ensemble.BlendPatterns | external_intelligence_engine.js:734-743 | factor 3 takes part exactly when the pattern's significance exceeds 0.3, at weight 0.3 |
| Classifier.GenerateRecommendation | external_intelligence_engine.js:853-883 | avoid exactly when confidence < 0.6, whatever the probabilities; a bet quotes the probability it rests on with tier high; monitor has tier medium |
| Classifier.RecommendationIsSymmetric | external_intelligence_engine.js:858-876 | on a normalised estimate at most one team exceeds 0.65, so a confident estimate bets on exactly the team above the threshold (the more probable one) and monitors when there is none |
| Classifier.AssessRiskLevel | external_intelligence_engine.js:886-896 | low iff confidence > 0.8 and the leading probability > 0.7; otherwise medium iff confidence > 0.6 and the leading probability > 0.6; otherwise high |
| Classifier.RiskIsMonotone | external_intelligence_engine.js:886-896 | more confidence or a larger leading probability never raises the risk tier |
| Classifier.LowRiskIsBet | external_intelligence_engine.js:853-896 | a low-risk normalised estimate is always a high-tier bet, on team 1 exactly when team 1 is the more probable |
| Classifier.AssessMatchDataQuality | external_intelligence_engine.js:899-911 | the score lies in [0, 1]; high iff more than two odds entries, some prediction and a pattern or traffic; low iff the odds-or-ML points are both missing, or only one of them is there with neither pattern nor traffic |
| IntelligenceReport.TrafficFor | external_intelligence_engine.js:663-665 | the intended traffic filter keeps exactly the records with data whose JSON text names either team |
| IntelligenceReport.TrafficFilterAgrees | external_intelligence_engine.js:663-665 | the filter as written throws exactly when some record has no data, and otherwise keeps the same records as the intended filter |
| IntelligenceReport.TrafficFilterThrowsWithoutData | external_intelligence_engine.js:664 | a single record without data makes the filter as written throw, where the intended filter drops it |
| IntelligenceReport.MatchDataFor | external_intelligence_engine.js:659-666 | a match gets exactly the odds and predictions filed under its `team1 vs team2` key, the pattern analysis, and the traffic of the corrected filter `TrafficFor` (see Findings), all of which has data |
| IntelligenceReport.MatchDataCounts | external_intelligence_engine.js:660-661 | each odds entry and prediction filed under the match key is kept as often as it occurs, so repeated entries weigh in the means as often as they were fetched; entries under other keys are dropped |
| IntelligenceReport.MatchOddsKeepOrder | external_intelligence_engine.js:660 | the match's odds keep the fetch order: filtering two batches gives the first batch's entries, then the second's |
| IntelligenceReport.ProbabilityClassified | external_intelligence_engine.js:669-688 | each stored record's three probabilities sum to 1; a low-risk record is a high-tier bet on its more probable team that leads with more than 0.7; its data-quality score is at least 0.2; its confidence exceeds 0.7 only when the match's ML predictions average above 0.7 |
| IntelligenceReport.CalculateWinProbabilities | external_intelligence_engine.js:650-689 | the per-match loop builds the probabilities object `WinProbabilities`, over the corrected traffic filter, skipping matches with fewer than two teams |
| IntelligenceReport.StoreAllShape | external_intelligence_engine.js:652-671 | the object's keys are distinct and are exactly the keys of the matches with two teams, and every entry was computed for a match with that key |
| IntelligenceReport.LastMatchWins | external_intelligence_engine.js:671 | assignment semantics: the record under a key is the one computed for the last match with that key |
| IntelligenceReport.WinProbabilitiesConsistent | external_intelligence_engine.js:650-689 | every record of the object is classified as `ProbabilityClassified` states, and its keys are distinct and exactly those of the matches with two teams |
| IntelligenceReport.HighConfidenceCount | external_intelligence_engine.js:929-930 | the number of records with team-1 confidence above 0.7 is at most the number of records |
| IntelligenceReport.HighConfidenceCountIsFilter | external_intelligence_engine.js:929-930 | counting record by record equals the length of the list filtered on team-1 confidence above 0.7 |
| IntelligenceReport.Summarise | external_intelligence_engine.js:924-931 | the match count is the number of records, the three source counts are the list sizes, and the high-confidence count is the length of the filtered records, never more than the match count |
| IntelligenceReport.NoHighConfidenceWithoutMl | external_intelligence_engine.js:924-931 | without any ML prediction no match is counted as high-confidence, since only the ML factor raises the confidence above 0.5 |
| IntelligenceReport.GenerateOverallRecommendations | external_intelligence_engine.js:947-965 | the method builds the recommendations of the non-avoid, low-risk records, stably sorted with high priority first |
| IntelligenceReport.SelectedMembers | external_intelligence_engine.js:950-960 | a recommendation is pushed exactly for each record that is not avoided and has low risk, with high priority exactly for high data quality |
| IntelligenceReport.OverallRecommendationsOrder | external_intelligence_engine.js:962-964 | the sort is a permutation that puts every high-priority recommendation before every medium one and keeps the entry order within each priority |
| IntelligenceReport.OverallRecommendationsAreBets | external_intelligence_engine.js:947-965 | every overall recommendation over the computed probabilities is a high-tier bet |
| IntelligenceReport.SelectedAreBets | external_intelligence_engine.js:951 | over consistently classified records the low-risk filter only lets through high-tier bets |
| IntelligenceReport.GenerateRiskAssessment | external_intelligence_engine.js:968-975 | reliability is high iff more than 5 traffic records, diversity is high iff more than 10 odds entries, ML is available iff any prediction, the overall risk is always medium |
| IntelligenceReport.RiskAssessmentIsMonotone | external_intelligence_engine.js:970-971 | more traffic or more odds never lowers a tier |
| IntelligenceReport.FindCrossSourcePatterns | external_intelligence_engine.js:613-638 | the nested loops build `Visited(3, 0, draw)`, each correlation drawn in turn and labelled high above 0.7, medium above 0.4, else low |
| IntelligenceReport.CrossPatternsAreAllPairs | external_intelligence_engine.js:617-635 | exactly the six ordered pairs of distinct sources, each once, each with its own draw and the label of that draw |
| Jackpot.Clean | jackpot_prediction_analyzer.js:176 | a cleaned part holds only word and space characters and neither starts nor ends with a space |
| Jackpot.KeptNamesShape | jackpot_prediction_analyzer.js:175-180 | no more names than parts, each 3 to 29 word or space characters |
| Jackpot.SeparatorFrom | jackpot_prediction_analyzer.js:171-184 | the separator chosen is the first of " vs ", " v ", " - ", " : " that splits the text into exactly two parts; none when no separator does |
| Jackpot.TeamNamesShape | jackpot_prediction_analyzer.js:165-187 | at most two names, each of 3 to 29 word or space characters; none when no separator splits the text in two |
| Jackpot.ExtractTeamNames | jackpot_prediction_analyzer.js:165-187 | the loop with `push` and `break` computes `TeamNames` |
| Jackpot.CategorizeOddsIntervals | jackpot_prediction_analyzer.js:189-195 | every value falls in exactly the bucket whose interval (lower, upper] holds it, with inclusive upper bounds 1.5, 2.0, 3.0 and 5.0 |
| Jackpot.CategorizeOddsMonotone | jackpot_prediction_analyzer.js:189-195 | larger odds never fall in a lower bucket |
| Jackpot.CountJackpotData | jackpot_prediction_analyzer.js:84-111 | the nested `forEach` loops leave the team, match-type and date counters equal to the counters of the names, types and dates in order |
| Jackpot.CountMatches | jackpot_prediction_analyzer.js:87-100 | one item's matches add their team names and their "vs"/"v" types to the counters |
| Jackpot.CountMatch | jackpot_prediction_analyzer.js:89-99 | one match adds its names, and "vs" before "v", to the counters |
| Jackpot.CountAll | jackpot_prediction_analyzer.js:90-92 | counting a list into a counter gives the counter of the concatenation |
| Jackpot.CountOddsRanges | jackpot_prediction_analyzer.js:114-124 | the odds-range counter counts the bucket of every odd that parsed, in order |
| Jackpot.CountValues | jackpot_prediction_analyzer.js:116-122 | one item's odds add the bucket of each parsed value and skip the NaN ones |
| Jackpot.JackpotCountsAreOccurrences | jackpot_prediction_analyzer.js:84-124 | the team counter's counts sum to the number of names and each team's count is its number of occurrences; the range counter sums to the number of parsed odds |
| Jackpot.CountSources | jackpot_prediction_analyzer.js:206-208 | the source counter counts the sources of the entries |
| Jackpot.GroupByMatch | jackpot_prediction_analyzer.js:211-215 | the grouping loop builds `Grouped`, one array per match in first-seen order |
| Jackpot.GroupedShape | jackpot_prediction_analyzer.js:211-215 | each match of the entries has exactly one non-empty array holding exactly its quotes, in order |
| Jackpot.Average | jackpot_prediction_analyzer.js:218-226 | `sources` is the number of quotes and the home team is favoured iff the home odds sum is below the away sum (ties favour away) |
| Jackpot.AveragesShape | jackpot_prediction_analyzer.js:217-227 | since the groups' keys are distinct, every assignment appends: one average per group, in order |
| Jackpot.AverageGroups | jackpot_prediction_analyzer.js:217-227 | the averaging loop builds `Averages` |
| Jackpot.AnalyzeExternalOddsPatterns | jackpot_prediction_analyzer.js:197-230 | the method computes `ExternalOddsAnalysis` |
| Jackpot.ExternalOddsAnalysisMeans | jackpot_prediction_analyzer.js:206-227 | the source counts sum to the number of entries; `averageOdds` has one entry per match, whose `sources` is that match's entry count and whose side is favoured as `Average` states |
| Jackpot.CountPredictions | jackpot_prediction_analyzer.js:240-250 | the three counters count the predictions, the confidence buckets (high > 0.7, medium > 0.5, else low) and the models |
| Jackpot.ConsensusOf | jackpot_prediction_analyzer.js:253-256 | each distinct prediction gets its count over the total times 100, in counter order |
| Jackpot.AnalyzeMlPredictionPatterns | jackpot_prediction_analyzer.js:232-259 | the method computes `MlAnalysisOf` |
| Jackpot.ConsensusSum | jackpot_prediction_analyzer.js:254-256 | the percentages add up to Total/n·100 |
| Jackpot.MlAnalysisMeans | jackpot_prediction_analyzer.js:240-256 | the prediction and confidence counts each sum to the number of predictions, and the consensus percentages sum to 100 |
| Jackpot.MlConsensusUnique | jackpot_prediction_analyzer.js:384-391 | no two predictions can both exceed 60 percent |
| Jackpot.CountKindsSum | jackpot_prediction_analyzer.js:279-295 | every insight is a jackpot or a target-date reference |
| Jackpot.SignificanceBounds | jackpot_prediction_analyzer.js:300-303 | 0 without insights; otherwise in [0.5, 0.8], above 0.5 iff some target-date reference, and 0.8 iff every insight is one |
| Jackpot.AnalyzeTrafficIntelligence | jackpot_prediction_analyzer.js:261-306 | the loop computes the source and type counters, the insights of each record with data, and the significance |
| Jackpot.AnyMentionsTargetDate | jackpot_prediction_analyzer.js:462-466 | `some` holds iff some item is a `date_match` or its JSON text mentions the target date in either format |
| Jackpot.Capped | jackpot_prediction_analyzer.js:474-476 | `Math.min(count / max, 1)` lies in [0, 1] and is 1 iff the count reaches the maximum |
| Jackpot.AssessDataQuality | jackpot_prediction_analyzer.js:445-481 | the overall score lies in [0, 1]; `dateSpecificData` is 0 or 1, and 1 iff captured data has an item about the target date |
| Jackpot.QualityScoreMonotone | jackpot_prediction_analyzer.js:472-478 | more data of any kind never lowers the score |
| Jackpot.QualityScoreFull | jackpot_prediction_analyzer.js:472-478 | the score is 1 iff at least 10 jackpot items, 20 match records, 15 odds items and target-date data |
| Ordered.TopRanks | jackpot_prediction_analyzer.js:321-323 | the top ten teams are min(10, n) entries of the counter in descending count order, and every team left out has a count no higher than any kept |
| Jackpot.PriorityTeamsMean | jackpot_prediction_analyzer.js:436-440 | priority teams are named iff more than five teams were counted, and are then the first five of the stable descending order |
| Jackpot.HighProbMatchesAreExact | jackpot_prediction_analyzer.js:335-357 | the `win_probability` data is sorted by descending probability and holds exactly the favoured side of each entry with leading probability > 0.65 and low risk |
| Jackpot.FavourAll | jackpot_prediction_analyzer.js:343-350 | one entry per kept match, in order |
| Jackpot.HighProbMatchesAreBets | jackpot_prediction_analyzer.js:335-350 | over the computed probabilities the 0.65 filter adds nothing to the low-risk test, and each kept match recommends the bet on its favoured team |
| Jackpot.OddsConsensusMeans | jackpot_prediction_analyzer.js:362-372 | each consensus entry is a match with at least two external odds entries, its `sources` is their number and its side is favoured as the averages say |
| Jackpot.ConsensusEntries | jackpot_prediction_analyzer.js:365-372 | one consensus entry per kept average, in order |
| Jackpot.MlConsensusIsUnique | jackpot_prediction_analyzer.js:384-391 | the `ml_consensus` data holds at most one prediction, seen among the predictions and above 60 percent |
| Jackpot.MlConsensusEntries | jackpot_prediction_analyzer.js:387-391 | one entry per kept prediction, in order, each carrying the confidence-level counter |
| Jackpot.Assemble | jackpot_prediction_analyzer.js:325-412 | no prediction is pushed with an empty list, at most five are pushed, and the team frequencies come first iff there are top teams |
| Jackpot.InsightPredictionsMeans | jackpot_prediction_analyzer.js:321-412 | no prediction has an empty list, and the team frequencies come first iff a team was counted |
| Jackpot.RiskFactorsMean | jackpot_prediction_analyzer.js:420-426 | "limited jackpot data" iff no jackpot item was captured; "no target-date data" iff no captured item is about the target date |
| Jackpot.AnalyzeJackpotPatterns | jackpot_prediction_analyzer.js:68-163 | the method computes `PatternsOf`: the counters of the captured data and, when present, the win probabilities and the three analyses |
| Events.OddsChangeRuleMeans | event_detection_system.py:143-165 | a non-number odds field raises; the rule fires iff both fields are there and the change exceeds a tenth of positive previous odds; severity is high iff it exceeds a quarter; the event is an odds change |
| Events.ApiSpikeRuleMeans | event_detection_system.py:168-190 | no event without a baseline entry or with zero deviation; it raises iff the deviation is positive and the rate is not a number; it fires iff abs(z) > 2.5, as an API-spike event with high severity iff abs(z) > 3 |
| Events.UnusualDomainsMeans | event_detection_system.py:198-200 | the list raises iff some frequency is not a number; otherwise it holds exactly the domains with frequency above 50 |
| Events.FindUnusualDomains | event_detection_system.py:196-200 | the loop computes `UnusualDomains`, stopping at the first comparison that raises |
| Events.CompetitorActivityRuleMeans | event_detection_system.py:193-212 | the rule fires iff some domain is above 50, as a medium competitor-activity event listing exactly those domains |
| Events.RuleTypes | event_detection_system.py:143-212 | each built-in rule emits events of its own type |
| Events.DetectedMeans | event_detection_system.py:88-99 | no more events than rules; each event was produced by a rule that fired and is of that rule's type; every rule that returned an event contributes it; none when every rule raises |
| Events.DetectedAppend | event_detection_system.py:90-99 | the rules run in registration order: rules registered in two groups give the first group's events, then the second's |
| Events.Bounded | event_detection_system.py:71-72 | a `deque(maxlen=n)`: at most n entries, the newest ones, in order |
| Events.RebaselineCovers | event_detection_system.py:110-118 | every metric of the sample gets the statistics of its values in the window; every other metric keeps its baseline |
| Events.UpdateBaselineCovers | event_detection_system.py:105-118 | once the window holds 30 samples each reported metric gets the statistics of the bounded window's values, other metrics keep theirs |
| Events.EventDetector.AddRule | event_detection_system.py:79-82 | appends the rule with its type; nothing else changes |
| Events.EventDetector.ApplyRule | event_detection_system.py:94 | a rule call computes `RuleOutcome` |
| Events.EventDetector.RunRules | event_detection_system.py:90-99 | the loop over the rules builds `Detected`: the events of the rules that fired, in registration order, skipping the ones that raised |
| Events.EventDetector.DetectEvents | event_detection_system.py:88-103 | returns `Detected` and extends the bounded history by exactly those events; nothing else changes |
| Events.EventDetector.UpdateBaseline | event_detection_system.py:105-118 | appends the sample to the bounded window and rebaselines the sample's metrics only once the window holds at least 30 samples |
| Events.SetupDetectionRules | event_detection_system.py:215-217 | registers the odds, API-spike and competitor rules in that order, each with its own event type |
| Events.TallyHours | event_detection_system.py:379-385 | the loop counts the hour of every timestamp that parsed and skips the others |
| Events.IdentifyPeakHours | event_detection_system.py:374-392 | the method computes `PeakHoursOf`, returning [] for no timestamps or no parsed hour |
| Events.PeakHoursMeans | event_detection_system.py:376-392 | at most three hours, each seen in a timestamp that parsed, none when no timestamp parsed |
| Events.PeakHoursOrdered | event_detection_system.py:391-392 | the peak hours come in descending order of their counts |
| Events.PeakHoursLeftOut | event_detection_system.py:391-392 | an hour left out was seen no more often than any hour kept |
| Packets.MatchIdSearch | ml_pattern_engine.py:269 | None exactly when the pattern matches nowhere from the start position on; otherwise a non-empty digit run |
| Packets.MatchIdRoundTrip | ml_pattern_engine.py:267-270 | `match_id=` followed by a number's decimal digits extracts exactly those digits |
| Packets.OddsSearch | ml_pattern_engine.py:225 | None exactly when the odds pattern matches nowhere; otherwise a non-empty run of digits and dots |
| Packets.OddsRoundTrip | ml_pattern_engine.py:225 | `odds=` followed by a number's digits yields exactly those digits |
| Packets.ParseFloatAccepts | ml_pattern_engine.py:227 | `float` refuses a run of digits and dots iff it has two dots or no digit |
| Packets.ParseFloatShowNat | ml_pattern_engine.py:227 | `float` of a number's decimal digits is that number |
| Packets.ClassifiersIgnoreCase | ml_pattern_engine.py:272-281 | the market type and the betting test give the same answer on the lower-cased URI |
| Packets.BatchCounts | ml_pattern_engine.py:216-241 | no more odds changes than betting events, no more betting events or API calls than packets |
| Packets.OddsChangesFromPackets | ml_pattern_engine.py:224-241 | each odds change comes from a packet whose URI is a betting URI with a parsable odds value, whose odds text parses to the recorded value, with that packet's time and source address |
| Packets.ApiCallsFromPackets | ml_pattern_engine.py:216-217 | a URI is counted iff some packet's HTTP layer has it and it passes the API test |
| Packets.RapidPairMeans | ml_pattern_engine.py:296-303 | a pair is rapid iff under a minute apart and the odds moved by more than a tenth of positive previous odds; the entry carries the current match id, a relative change above a tenth and fewer than 60 elapsed seconds |
| Packets.RapidChangesCount | ml_pattern_engine.py:287-292 | nothing for fewer than two changes, at most one entry per consecutive pair |
| Packets.RapidChangesMeans | ml_pattern_engine.py:292-303 | an entry is listed iff some consecutive pair is rapid with that entry |
| Packets.RapidChangesAsWrittenAgrees | ml_pattern_engine.py:292-303 | with positive previous odds and gaps under a day the loop as written gives the same list as the corrected one |
| Packets.ZeroOddsRaise | ml_pattern_engine.py:297 | previous odds 0 followed a second later by odds 2 make the loop as written raise; the corrected one lists nothing |
| Packets.DayApartIsRapid | ml_pattern_engine.py:296 | two odds a day and 30 seconds apart count as 30 seconds apart as written; the corrected loop lists nothing |
| Packets.FindRapidChanges | ml_pattern_engine.py:291-303 | the loop over consecutive pairs computes `RapidChanges` |
| Packets.HighFrequencyMeans | ml_pattern_engine.py:313-320 | an endpoint is suspicious iff it is in the counter with a count above 10 |
| Packets.FindHighFrequency | ml_pattern_engine.py:313-320 | the loop computes `HighFrequency`, in counter order |
| Packets.AlertsMean | ml_pattern_engine.py:283-335 | each detector stores its alert iff its threshold is crossed: some rapid pair, some endpoint above 10 calls, more than 100 betting events |
| Packets.PacketAnalysis.AnalyzeHttpRequest | ml_pattern_engine.py:210-241 | counts an API call iff the API test holds, a betting event iff the lower-cased URI has a keyword, appends the odds change of a parsable odds value, and raises iff `float` refuses the odds text, after both counters were updated |
| Packets.PacketAnalysis.AnalyzeTlsHandshake | ml_pattern_engine.py:252-265 | records a sighting iff the server name names betika, bet365 or sportpesa |
| Packets.PacketAnalysis.ProcessPacket | ml_pattern_engine.py:187-208 | the HTTP layer, then the TLS layer unless the HTTP analysis raised; the exception stops at the packet |
| Packets.PacketAnalysis.ProcessPackets | ml_pattern_engine.py:173-178 | the per-packet loop leaves the counters equal to the batch functions of all packets; a packet that raised never aborts the batch |
| Packets.PacketAnalysis.DetectOddsPatterns | ml_pattern_engine.py:283-306 | stores the rapid-change alert `OddsAlert` of the corrected detector `RapidChanges` (see Findings) and changes nothing else |
| Packets.PacketAnalysis.DetectUserPatterns | ml_pattern_engine.py:308-324 | extends `suspicious_activity` by exactly the high-frequency endpoints and stores their alert |
| Packets.PacketAnalysis.DetectAnomalies | ml_pattern_engine.py:326-335 | stores the activity alert iff more than 100 betting events |
| Packets.AnalyzeHttpPackets | ml_pattern_engine.py:151-185 | the results: the packet count, the batch counters, the high-frequency endpoints and the three detectors' alerts, in order, with the corrected rapid-change detector |
| Text.IndexFrom | jackpot_prediction_analyzer.js:172 | `includes` finds the first occurrence of the pattern from a position, and reports none only when it occurs nowhere after it |
| Text.Split | jackpot_prediction_analyzer.js:173-174 | `split` gives at least one part, and exactly one iff the separator does not occur |
| Text.Trim | jackpot_prediction_analyzer.js:176 | `trim` yields a text no longer than its input, of its characters, neither starting nor ending with white space |
| Text.KeepWordAndSpace | jackpot_prediction_analyzer.js:176 | `replace(/[^\w\s]/g, '')` keeps exactly the word and white-space characters, in a text no longer than its input |
| Text.ToLower | ml_pattern_engine.py:221 | lower-casing keeps the length |
| Packets.ParseFloat | ml_pattern_engine.py:227 | `float` of a run of digits and dots, when it succeeds, is not negative |
| Jackpot.Consensus | jackpot_prediction_analyzer.js:253-256 | one non-negative percentage per prediction of the counter, keyed as the counter is |
| Ordered.TallyOf | jackpot_prediction_analyzer.js:90-92 | the counter built by repeated increments has distinct keys and counts as many as the list has elements |
| Ordered.SortDesc | jackpot_prediction_analyzer.js:321-323 | the descending sort is sorted and a permutation of its input |
| Ordered.Filter | jackpot_prediction_analyzer.js:335-342 | `filter` keeps exactly the elements that pass the test |
| Ordered.FilterCounts | jackpot_prediction_analyzer.js:335-342 | `filter` keeps each passing element as often as it occurs and drops the others |
| Ordered.FilterAppend | jackpot_prediction_analyzer.js:335-342 | `filter` keeps the order: filtering a concatenation concatenates the filtered parts |
| Ordered.Take | jackpot_prediction_analyzer.js:323 | `slice(0, n)` is the prefix of length min(n, length) |
| Events.EventDetector.constructor | event_detection_system.py:68-77 | a new detector has no rules, an empty history and window, and no baseline |
| Packets.PacketAnalysis.constructor | ml_pattern_engine.py:164-171 | the results start with the packet count, no betting events, no odds changes, no API calls and no suspicious activity |
| Ordered.Increment | jackpot_prediction_analyzer.js:91 | `d[k] = (d[k] \|\| 0) + 1` raises k's count by one, leaves every other count, and adds k to the keys |
| Ordered.TallyOfCounts | jackpot_prediction_analyzer.js:90-92 | the counter of a list counts each key as often as it occurs |
| Ordered.SortDescStable | external_intelligence_engine.js:962-964 | the descending sort keeps the original order among equal keys |
| Ordered.Put | jackpot_prediction_analyzer.js:221 | assignment sets the key, leaves the others, keeps the positions of the existing keys and appends a new key |

## Left out

- Floating point: probabilities, odds and confidences are `real`, so the `toFixed`/`parseFloat` round trips (external_intelligence_engine.js:759-762, 908; jackpot_prediction_analyzer.js:222-223, 255) and binary rounding are not modelled.
- File, process and database I/O: the `fs` reads and writes, `tshark`, the Python child process, SQLite alerts (`_create_alert` is modelled as a list of stored alert rows), logging, and the QUIC branch, which only logs.
- Missing or unreadable packet files: `analyze_http_packets` then returns `{}`; the model starts from a list of parsed packets.
- Randomness and clocks: `Math.random` correlations are the parameter `draw`; `datetime.now()` readings are per-packet timestamps; event ids and timestamps are not modelled.
- The numpy `mean`/`std`/`percentile` of `update_baseline` are the parameter `stats`; `last_updated` is not modelled.
- Events.EventDetector: only the three built-in rules can be registered, not arbitrary callables; `add_handler` and the handlers are not modelled.
- Text: lower-casing is ASCII only, and JSON texts are given as strings (`JSON.stringify` of a payload is its `data` string).
- Packets: the `http.request.method` value is read and never used, so it is left out; exceptions other than `float`'s `ValueError` (non-string URIs, malformed layers) are not modelled.
- Alert and recommendation texts and descriptions are reduced to their kinds and data.
- JavaScript's ordering of integer-like object keys before other keys is not modelled; all keys keep insertion order.
- Ensemble.AnalyzeOddsForProbability: a present price is taken to be the positive decimal the engine's own `toFixed` strings always are; a truthy price string such as "0.00" or "abc" would pass the test at external_intelligence_engine.js:773 and turn the mean into Infinity or NaN, which is not modelled.
- IntelligenceReport.MatchDataFor: uses the corrected traffic filter; as written, a traffic record without data throws (see Findings).
- IntelligenceReport.CalculateWinProbabilities: computes the object over the corrected traffic filter; as written, one traffic record without data makes the whole calculation throw (see Findings).
- Packets.PacketAnalysis.DetectOddsPatterns: uses the corrected rapid-change detector; as written, zero previous odds raise ZeroDivisionError and `.seconds` ignores whole days (see Findings).
- Packets.AnalyzeHttpPackets: uses the corrected rapid-change detector; as written, zero previous odds abort the batch after the packet loop and `.seconds` ignores whole days, flagging changes a day apart (see Findings).
- Ensemble.Fuse: requires every traffic record to carry data, which the traffic filter guarantees; a record without data makes the filter as written throw first (see Findings).

## Code versus design description

The model follows the code where its design description differs:
- A match with no available signal still gets the prior estimate 0.5/0.5/0.3, normalised.
- Odds with no usable entry yield 0.5/0.5 and still count as a category at weight 0.3.
- Only the ML factor changes the confidence.
- Data quality awards the odds points for more than two entries, not two or more.
- The pattern analysis is always present, so every match gets its 0.2 data-quality points.
- Traffic never takes part in the blend.
- The overall recommendations keep only the non-avoided, low-risk records, sorted by priority alone.
- Matches with fewer than two teams are skipped, not rejected.
- A bet goes to team 1 first. On a normalised estimate this is the same as betting on the favoured team (`Classifier.RecommendationIsSymmetric`).

## Findings

| source | as written | input that shows it | evidently intended | confidence | as-written member | corrected member |
|---|---|---|---|---|---|---|
| external_intelligence_engine.js:663-665 | `t.data && s.includes(team1) \|\| s.includes(team2)` parses as `(t.data && …) \|\| …`, so a record without `data` reaches `JSON.stringify(undefined).includes`, which throws and aborts the whole calculation | one traffic record `{source: "tls", type: "http"}` without `data`, for Arsenal vs Chelsea | `t.data && (… \|\| …)`: records without data are dropped | not executed | IntelligenceReport.TrafficFilterThrowsWithoutData | IntelligenceReport.TrafficFilterAgrees |
| ml_pattern_engine.py:297 | the relative change divides by the previous odds, so previous odds of 0 within the minute raise `ZeroDivisionError`, which `analyze_http_packets` does not catch | `/live/bet?odds=0` then `/live/bet?odds=2` one second later | a change from non-positive odds counts as 0, as the odds rule of event_detection_system.py:146 does | not executed | Packets.ZeroOddsRaise | Packets.RapidPairMeans |
| ml_pattern_engine.py:296 | `timedelta.seconds` is only the seconds field of the difference, so two changes a day and 30 seconds apart count as 30 seconds apart | odds 2 at time 0 and odds 3 at one day plus 30 s | the whole elapsed time must be under 60 seconds (and not negative) | not executed | Packets.DayApartIsRapid | Packets.RapidPairMeans |
