/** The event detector of event_detection_system.py: three threshold
    rules over a data record, a detector holding its rules, a bounded
    event history, a bounded window of metric samples and the baseline
    statistics computed from it, and the peak hours of a competitor. */
module Events {
  import opened Wrappers
  import opened Ordered

  /** `deque(maxlen=10000)` and `deque(maxlen=1000)`. */
  const MaxHistory: nat := 10000
  const MaxWindow: nat := 1000
  /** The baseline is recomputed from this many samples on. */
  const MinSamples: nat := 30
  /** `z_score_threshold`. */
  const ZScoreThreshold: real := 2.5

  datatype EventType = OddsChange | ApiSpike | UserSession | CompetitorActivity | AnomalyDetected | SecurityAlert

  datatype Severity = Low | Medium | High | Critical

  /** A value of the data record: a number, or anything else, on which
      arithmetic and comparison raise a `TypeError`. */
  datatype Value = Number(x: real) | NotNumber

  /** The keys of a data record the rules read; a missing key is `None`. */
  datatype DataRecord = DataRecord(
    odds: Option<Value>, previousOdds: Option<Value>, matchId: Option<string>,
    apiCallsPerMinute: Option<Value>, competitorDomains: Option<Entries<string, Value>>)

  /** The `data` of an event. */
  datatype EventData =
    | OddsChangeData(matchId: Option<string>, oldOdds: real, newOdds: real, changePercent: real)
    | ApiSpikeData(currentRate: real, baselineMean: real, zScore: real)
    | CompetitorData(activeCompetitors: seq<(string, real)>)

  /** An event, without its generated id, its timestamp and its metadata. */
  datatype Event = Event(eventType: EventType, severity: Severity, source: string, data: EventData)

  /** The exception a rule raises. */
  datatype RuleError = TypeError

  /** A rule's outcome: an event, no event, or an exception. */
  type Outcome = Result<Option<Event>, RuleError>

  /** The statistics of a metric: `np.mean`, `np.std` and
      `np.percentile(values, 95)`. */
  datatype Stats = Stats(mean: real, std: real, percentile95: real)

  /** The three rules `_setup_detection_rules` registers. */
  datatype Rule = OddsChangeRule | ApiSpikeRule | CompetitorActivityRule

  /** A metrics sample: metric name to value. */
  type Metrics = Entries<string, real>

  function Abs(x: real): real {
    if x < 0.0 then -x else x
  }

  // ---------------------------------------------------------------------
  // The rules

  /** The relative change of the odds; 0 when the previous odds are not
      positive. */
  function ChangeRatio(odds: real, previous: real): real {
    if previous > 0.0 then Abs(odds - previous) / previous else 0.0
  }

  /** `odds_change_rule`. */
  function OddsChangeOutcome(d: DataRecord): Outcome {
    if d.odds.None? || d.previousOdds.None? then Ok(None)
    else if d.odds.value.NotNumber? || d.previousOdds.value.NotNumber? then Err(TypeError)
    else
      var odds, previous := d.odds.value.x, d.previousOdds.value.x;
      var change := ChangeRatio(odds, previous);
      if change > 0.1 then
        Ok(Some(Event(OddsChange, if change > 0.25 then High else Medium, "odds_monitor",
                      OddsChangeData(d.matchId, previous, odds, change * 100.0))))
      else Ok(None)
  }

  /** The odds rule fires exactly on a relative change above 10 percent
      from positive previous odds, and rates it high above 25 percent; it
      raises only when a value is not a number. */
  lemma OddsChangeRuleMeans(d: DataRecord)
    ensures OddsChangeOutcome(d).Err? <==>
      d.odds.Some? && d.previousOdds.Some? && (d.odds.value.NotNumber? || d.previousOdds.value.NotNumber?)
    ensures OddsChangeOutcome(d).Ok? && OddsChangeOutcome(d).value.Some? <==>
      && d.odds.Some? && d.previousOdds.Some? && d.odds.value.Number? && d.previousOdds.value.Number?
      && d.previousOdds.value.x > 0.0
      && Abs(d.odds.value.x - d.previousOdds.value.x) > 0.1 * d.previousOdds.value.x
    ensures OddsChangeOutcome(d).Ok? && OddsChangeOutcome(d).value.Some? ==>
      var e := OddsChangeOutcome(d).value.value;
      && e.eventType == OddsChange
      && (e.severity == High <==> Abs(d.odds.value.x - d.previousOdds.value.x) > 0.25 * d.previousOdds.value.x)
      && (e.severity == Medium <==> e.severity != High)
  {
    if d.odds.Some? && d.previousOdds.Some? && d.odds.value.Number? && d.previousOdds.value.Number? {
      var odds, previous := d.odds.value.x, d.previousOdds.value.x;
      if previous > 0.0 {
        RatioAbove(Abs(odds - previous), previous, 0.1);
        RatioAbove(Abs(odds - previous), previous, 0.25);
      }
    }
  }

  /** `x / n > k` exactly when `x > k * n`, for positive `n`. */
  lemma RatioAbove(x: real, n: real, k: real)
    requires n > 0.0
    ensures x / n > k <==> x > k * n
  {
    assert (x / n) * n == x;
    if x / n > k {
      assert (x / n) * n > k * n;
    } else {
      assert (x / n) * n <= k * n;
    }
  }

  /** The z-score of a rate against a baseline: 0 when the deviation is 0,
      and the rate is not read in that case. */
  function ZScore(rate: Value, b: Stats): Result<real, RuleError> {
    if b.std > 0.0 then
      if rate.NotNumber? then Err(TypeError) else Ok((rate.x - b.mean) / b.std)
    else Ok(0.0)
  }

  /** The name of the baseline the API rule reads. */
  const ApiCallsMetric: string := "api_calls_per_minute"

  /** `api_spike_rule`. */
  function ApiSpikeOutcome(d: DataRecord, baseline: Entries<string, Stats>): Outcome {
    if d.apiCallsPerMinute.None? || ApiCallsMetric !in KeySet(baseline) then Ok(None)
    else
      var b := Get(baseline, ApiCallsMetric, Stats(0.0, 0.0, 0.0));
      match ZScore(d.apiCallsPerMinute.value, b)
      case Err(e) => Err(e)
      case Ok(z) =>
        if Abs(z) > ZScoreThreshold then
          Ok(Some(Event(ApiSpike, if Abs(z) > 3.0 then High else Medium, "api_monitor",
                        ApiSpikeData(d.apiCallsPerMinute.value.x, b.mean, z))))
        else Ok(None)
  }

  /** The API rule never fires without a baseline or with a baseline of
      no deviation; otherwise it fires exactly when the z-score exceeds
      2.5 in size, and rates it high above 3. */
  lemma ApiSpikeRuleMeans(d: DataRecord, baseline: Entries<string, Stats>)
    ensures ApiCallsMetric !in KeySet(baseline) ==> ApiSpikeOutcome(d, baseline) == Ok(None)
    ensures var b := Get(baseline, ApiCallsMetric, Stats(0.0, 0.0, 0.0));
      b.std <= 0.0 ==> ApiSpikeOutcome(d, baseline) == Ok(None)
    ensures var b := Get(baseline, ApiCallsMetric, Stats(0.0, 0.0, 0.0));
      ApiSpikeOutcome(d, baseline).Err? <==>
        ApiCallsMetric in KeySet(baseline) && b.std > 0.0 && d.apiCallsPerMinute == Some(NotNumber)
    ensures var b := Get(baseline, ApiCallsMetric, Stats(0.0, 0.0, 0.0));
      ApiSpikeOutcome(d, baseline).Ok? && ApiSpikeOutcome(d, baseline).value.Some? <==>
        && ApiCallsMetric in KeySet(baseline) && b.std > 0.0
        && d.apiCallsPerMinute.Some? && d.apiCallsPerMinute.value.Number?
        && Abs((d.apiCallsPerMinute.value.x - b.mean) / b.std) > ZScoreThreshold
    ensures ApiSpikeOutcome(d, baseline).Ok? && ApiSpikeOutcome(d, baseline).value.Some? ==>
      var e := ApiSpikeOutcome(d, baseline).value.value;
      e.eventType == ApiSpike && e.data.ApiSpikeData? && (e.severity == High <==> Abs(e.data.zScore) > 3.0)
  {
  }

  /** The domains whose frequency is above 50, in order; comparing a
      frequency that is not a number raises. */
  function UnusualDomains(domains: Entries<string, Value>): Result<seq<(string, real)>, RuleError> {
    if domains == [] then Ok([])
    else
      match UnusualDomains(domains[..|domains| - 1])
      case Err(e) => Err(e)
      case Ok(found) =>
        var (domain, frequency) := domains[|domains| - 1];
        if frequency.NotNumber? then Err(TypeError)
        else if frequency.x > 50.0 then Ok(found + [(domain, frequency.x)])
        else Ok(found)
  }

  /** The collected domains are exactly those above 50, in order, unless a
      frequency is not a number. */
  lemma {:induction false} UnusualDomainsMeans(domains: Entries<string, Value>)
    ensures UnusualDomains(domains).Err? <==> exists i :: 0 <= i < |domains| && domains[i].1.NotNumber?
    ensures UnusualDomains(domains).Ok? ==>
      forall d, f :: (d, f) in UnusualDomains(domains).value <==> (d, Number(f)) in domains && f > 50.0
    decreases |domains|
  {
    if domains != [] {
      var init := domains[..|domains| - 1];
      UnusualDomainsMeans(init);
      if UnusualDomains(domains).Err? && UnusualDomains(init).Ok? {
        assert domains[|domains| - 1].1.NotNumber?;
      }
      if UnusualDomains(domains).Ok? {
        var last := domains[|domains| - 1];
        var found := UnusualDomains(init).value;
        assert domains == init + [last];
        forall d, f
          ensures (d, f) in UnusualDomains(domains).value <==> (d, Number(f)) in domains && f > 50.0
        {
          assert (d, Number(f)) in domains <==> (d, Number(f)) in init || last == (d, Number(f));
          if last.1.x > 50.0 {
            assert UnusualDomains(domains).value == found + [(last.0, last.1.x)];
          }
        }
      }
      if exists i :: 0 <= i < |domains| && domains[i].1.NotNumber? {
        var i :| 0 <= i < |domains| && domains[i].1.NotNumber?;
        if i < |init| {
          assert init[i].1.NotNumber?;
        }
      }
    }
  }

  /** The loop of `competitor_activity_rule`. */
  method FindUnusualDomains(domains: Entries<string, Value>) returns (r: Result<seq<(string, real)>, RuleError>)
    ensures r == UnusualDomains(domains)
  {
    var unusual: seq<(string, real)> := [];
    for i := 0 to |domains|
      invariant UnusualDomains(domains[..i]) == Ok(unusual)
    {
      assert domains[..i + 1][..i] == domains[..i];
      var (domain, frequency) := domains[i];
      if frequency.NotNumber? {
        r := Err(TypeError);
        assert UnusualDomains(domains[..i + 1]) == Err(TypeError);
        ErrPersists(domains, i + 1);
        return;
      }
      if frequency.x > 50.0 {
        unusual := unusual + [(domain, frequency.x)];
      }
    }
    assert domains[..|domains|] == domains;
    r := Ok(unusual);
  }

  /** Once a prefix raises, every longer prefix raises. */
  lemma {:induction false} ErrPersists(domains: Entries<string, Value>, n: nat)
    requires n <= |domains| && UnusualDomains(domains[..n]) == Err(TypeError)
    ensures UnusualDomains(domains) == Err(TypeError)
    decreases |domains| - n
  {
    if n < |domains| {
      assert domains[..n + 1][..n] == domains[..n];
      ErrPersists(domains, n + 1);
    } else {
      assert domains[..n] == domains;
    }
  }

  /** `competitor_activity_rule`. */
  function CompetitorActivityOutcome(d: DataRecord): Outcome {
    if d.competitorDomains.None? then Ok(None)
    else
      match UnusualDomains(d.competitorDomains.value)
      case Err(e) => Err(e)
      case Ok(unusual) =>
        if unusual != [] then Ok(Some(Event(CompetitorActivity, Medium, "competitor_monitor", CompetitorData(unusual))))
        else Ok(None)
  }

  /** The competitor rule fires exactly when some domain is above 50, and
      its event lists exactly those domains. */
  lemma CompetitorActivityRuleMeans(d: DataRecord)
    requires d.competitorDomains.Some? && CompetitorActivityOutcome(d).Ok?
    ensures CompetitorActivityOutcome(d).value.Some? <==>
      exists i :: 0 <= i < |d.competitorDomains.value| && d.competitorDomains.value[i].1.Number?
                  && d.competitorDomains.value[i].1.x > 50.0
    ensures CompetitorActivityOutcome(d).value.Some? ==>
      var e := CompetitorActivityOutcome(d).value.value;
      && e.eventType == CompetitorActivity && e.severity == Medium && e.data.CompetitorData?
      && forall n, f :: (n, f) in e.data.activeCompetitors <==> (n, Number(f)) in d.competitorDomains.value && f > 50.0
  {
    var domains := d.competitorDomains.value;
    UnusualDomainsMeans(domains);
    var unusual := UnusualDomains(domains).value;
    if exists i :: 0 <= i < |domains| && domains[i].1.Number? && domains[i].1.x > 50.0 {
      var i :| 0 <= i < |domains| && domains[i].1.Number? && domains[i].1.x > 50.0;
      assert (domains[i].0, Number(domains[i].1.x)) in domains;
      assert (domains[i].0, domains[i].1.x) in unusual;
    }
    if unusual != [] {
      var (n, f) := unusual[0];
      assert (n, f) in unusual;
      assert (n, Number(f)) in domains && f > 50.0;
      var i :| 0 <= i < |domains| && domains[i] == (n, Number(f));
      assert domains[i].1.Number? && domains[i].1.x > 50.0;
    }
  }

  /** What a rule returns for a record, given the detector's baseline. */
  function RuleOutcome(rule: Rule, d: DataRecord, baseline: Entries<string, Stats>): Outcome {
    match rule
    case OddsChangeRule => OddsChangeOutcome(d)
    case ApiSpikeRule => ApiSpikeOutcome(d, baseline)
    case CompetitorActivityRule => CompetitorActivityOutcome(d)
  }

  /** The event type each rule produces. */
  function RuleType(rule: Rule): EventType {
    match rule
    case OddsChangeRule => OddsChange
    case ApiSpikeRule => ApiSpike
    case CompetitorActivityRule => CompetitorActivity
  }

  /** `[e]` for a rule that returned event `e`, `[]` for one that returned
      nothing or raised. */
  function Fired(o: Outcome): seq<Event> {
    if o.Ok? && o.value.Some? then [o.value.value] else []
  }

  /** The events of the rules, in registration order. */
  function Detected(rules: seq<(Rule, EventType)>, d: DataRecord, baseline: Entries<string, Stats>): seq<Event> {
    if rules == [] then []
    else Detected(rules[..|rules| - 1], d, baseline) + Fired(RuleOutcome(rules[|rules| - 1].0, d, baseline))
  }

  /** At most one event per rule, each of its rule's own type (the type a
      rule is registered with is not read), every rule that returned an
      event contributes it, and a rule that raises adds none. */
  lemma {:induction false} DetectedMeans(rules: seq<(Rule, EventType)>, d: DataRecord, baseline: Entries<string, Stats>)
    ensures |Detected(rules, d, baseline)| <= |rules|
    ensures forall e :: e in Detected(rules, d, baseline) ==>
      exists i :: 0 <= i < |rules| && RuleOutcome(rules[i].0, d, baseline) == Ok(Some(e)) && e.eventType == RuleType(rules[i].0)
    ensures (forall i :: 0 <= i < |rules| ==> RuleOutcome(rules[i].0, d, baseline).Err?) ==> Detected(rules, d, baseline) == []
    ensures forall i :: 0 <= i < |rules| && RuleOutcome(rules[i].0, d, baseline).Ok?
                        && RuleOutcome(rules[i].0, d, baseline).value.Some? ==>
      RuleOutcome(rules[i].0, d, baseline).value.value in Detected(rules, d, baseline)
    decreases |rules|
  {
    if rules != [] {
      var init := rules[..|rules| - 1];
      DetectedMeans(init, d, baseline);
      forall i | 0 <= i < |rules| && RuleOutcome(rules[i].0, d, baseline).Ok? && RuleOutcome(rules[i].0, d, baseline).value.Some?
        ensures RuleOutcome(rules[i].0, d, baseline).value.value in Detected(rules, d, baseline)
      {
        if i < |init| {
          assert rules[i] == init[i];
        }
      }
      forall e | e in Detected(rules, d, baseline)
        ensures exists i :: 0 <= i < |rules| && RuleOutcome(rules[i].0, d, baseline) == Ok(Some(e))
                            && e.eventType == RuleType(rules[i].0)
      {
        if e in Detected(init, d, baseline) {
          var i :| 0 <= i < |init| && RuleOutcome(init[i].0, d, baseline) == Ok(Some(e)) && e.eventType == RuleType(init[i].0);
          assert rules[i] == init[i];
        } else {
          var i := |rules| - 1;
          RuleTypes(rules[i].0, d, baseline);
        }
      }
      if forall i :: 0 <= i < |rules| ==> RuleOutcome(rules[i].0, d, baseline).Err? {
        assert forall i :: 0 <= i < |init| ==> init[i] == rules[i];
      }
    }
  }

  /** Rules are run in registration order: the events of rules registered
      in two groups are those of the first group, then those of the
      second. */
  lemma {:induction false} DetectedAppend(a: seq<(Rule, EventType)>, b: seq<(Rule, EventType)>, d: DataRecord,
                                          baseline: Entries<string, Stats>)
    ensures Detected(a + b, d, baseline) == Detected(a, d, baseline) + Detected(b, d, baseline)
    decreases |b|
  {
    if b == [] {
      assert a + b == a;
    } else {
      var init := b[..|b| - 1];
      assert (a + b)[..|a + b| - 1] == a + init;
      DetectedAppend(a, init, d, baseline);
    }
  }

  /** Each rule's event is of the rule's own type. */
  lemma RuleTypes(rule: Rule, d: DataRecord, baseline: Entries<string, Stats>)
    ensures RuleOutcome(rule, d, baseline).Ok? && RuleOutcome(rule, d, baseline).value.Some? ==>
      RuleOutcome(rule, d, baseline).value.value.eventType == RuleType(rule)
  {
  }

  /** The last `n` elements: a full deque drops its oldest entries first. */
  function Bounded<T>(s: seq<T>, n: nat): (r: seq<T>)
    ensures |r| <= n
    ensures |s| <= n ==> r == s
    ensures |s| > n ==> |r| == n
    ensures forall i :: 0 <= i < |r| ==> r[i] == s[|s| - |r| + i]
  {
    if |s| <= n then s else s[|s| - n..]
  }

  // ---------------------------------------------------------------------
  // The baseline

  /** `[m.get(metric, 0) for m in window if metric in m]`. */
  function ValuesOf(window: seq<Metrics>, metric: string): seq<real> {
    if window == [] then []
    else
      var m := window[|window| - 1];
      ValuesOf(window[..|window| - 1], metric) + (if metric in KeySet(m) then [Get(m, metric, 0.0)] else [])
  }

  /** The baselines after recomputing each metric of `metrics`, in order,
      from the values in the window. */
  function Rebaseline(baseline: Entries<string, Stats>, metrics: Metrics, window: seq<Metrics>,
                      stats: seq<real> -> Stats): Entries<string, Stats>
  {
    if metrics == [] then baseline
    else
      var b := Rebaseline(baseline, metrics[..|metrics| - 1], window, stats);
      var values := ValuesOf(window, metrics[|metrics| - 1].0);
      if values != [] then Put(b, metrics[|metrics| - 1].0, stats(values)) else b
  }

  /** The window ends with the sample just added, so every metric of the
      sample has a value and a fresh baseline, and no other metric's
      baseline changes. */
  lemma {:induction false} RebaselineCovers(baseline: Entries<string, Stats>, metrics: Metrics, window: seq<Metrics>,
                                            stats: seq<real> -> Stats, sample: Metrics, k: string, default: Stats)
    requires window != [] && window[|window| - 1] == sample
    requires forall i :: 0 <= i < |metrics| ==> metrics[i].0 in KeySet(sample)
    ensures k in KeySet(metrics) ==> Get(Rebaseline(baseline, metrics, window, stats), k, default) == stats(ValuesOf(window, k))
    ensures k !in KeySet(metrics) ==> Get(Rebaseline(baseline, metrics, window, stats), k, default) == Get(baseline, k, default)
    decreases |metrics|
  {
    if metrics != [] {
      var init := metrics[..|metrics| - 1];
      RebaselineCovers(baseline, init, window, stats, sample, k, default);
      KeySetSnoc(metrics);
      ValuesOfLast(window, metrics[|metrics| - 1].0);
    }
  }

  /** A metric of the newest sample has a value in the window. */
  lemma ValuesOfLast(window: seq<Metrics>, metric: string)
    requires window != [] && metric in KeySet(window[|window| - 1])
    ensures ValuesOf(window, metric) != []
  {
  }

  // ---------------------------------------------------------------------
  // The detector

  class EventDetector {
    var rules: seq<(Rule, EventType)>
    var eventHistory: seq<Event>
    var statsWindow: seq<Metrics>
    var baselineMetrics: Entries<string, Stats>

    /** The deques never exceed their bounds. */
    ghost predicate Valid()
      reads this
    {
      |eventHistory| <= MaxHistory && |statsWindow| <= MaxWindow
    }

    constructor()
      ensures Valid()
      ensures rules == [] && eventHistory == [] && statsWindow == [] && baselineMetrics == []
    {
      rules, eventHistory, statsWindow, baselineMetrics := [], [], [], [];
    }

    /** `add_rule`. */
    method AddRule(rule: Rule, eventType: EventType)
      requires Valid()
      modifies this
      ensures Valid()
      ensures rules == old(rules) + [(rule, eventType)]
      ensures eventHistory == old(eventHistory) && statsWindow == old(statsWindow)
      ensures baselineMetrics == old(baselineMetrics)
    {
      rules := rules + [(rule, eventType)];
    }

    /** Runs one rule; the competitor rule's loop is a method. */
    static method ApplyRule(rule: Rule, data: DataRecord, baselineMetrics: Entries<string, Stats>) returns (outcome: Outcome)
      ensures outcome == RuleOutcome(rule, data, baselineMetrics)
    {
      match rule
      case OddsChangeRule =>
        outcome := OddsChangeOutcome(data);
      case ApiSpikeRule =>
        outcome := ApiSpikeOutcome(data, baselineMetrics);
      case CompetitorActivityRule =>
        if data.competitorDomains.None? {
          outcome := Ok(None);
        } else {
          var unusual := FindUnusualDomains(data.competitorDomains.value);
          outcome := match unusual
            case Err(e) => Err(e)
            case Ok(found) =>
              if found != [] then Ok(Some(Event(CompetitorActivity, Medium, "competitor_monitor", CompetitorData(found))))
              else Ok(None);
        }
    }

    /** The loop of `detect_events` over the rules. */
    static method RunRules(rules: seq<(Rule, EventType)>, data: DataRecord, baseline: Entries<string, Stats>)
      returns (detected: seq<Event>)
      ensures detected == Detected(rules, data, baseline)
    {
      detected := [];
      for i := 0 to |rules|
        invariant detected == Detected(rules[..i], data, baseline)
      {
        assert rules[..i + 1][..i] == rules[..i];
        var outcome := ApplyRule(rules[i].0, data, baseline);
        if outcome.Ok? && outcome.value.Some? {
          detected := detected + [outcome.value.value];
        } else {
          assert detected + [] == detected;
        }
      }
      assert rules[..|rules|] == rules;
    }

    /** `detect_events`: every rule in registration order, skipping the
      ones that raise; the events found are added to the history. */
    method DetectEvents(data: DataRecord) returns (detected: seq<Event>)
      requires Valid()
      modifies this
      ensures Valid()
      ensures detected == Detected(rules, data, baselineMetrics)
      ensures eventHistory == Bounded(old(eventHistory) + detected, MaxHistory)
      ensures rules == old(rules) && statsWindow == old(statsWindow) && baselineMetrics == old(baselineMetrics)
    {
      detected := RunRules(rules, data, baselineMetrics);
      eventHistory := Bounded(eventHistory + detected, MaxHistory);
    }

    /** `update_baseline`: the sample joins the window, and once the window
      holds 30 samples each of the sample's metrics gets fresh statistics
      from the values in the window. */
    method UpdateBaseline(metrics: Metrics, stats: seq<real> -> Stats)
      requires Valid()
      modifies this
      ensures Valid()
      ensures statsWindow == Bounded(old(statsWindow) + [metrics], MaxWindow)
      ensures baselineMetrics ==
        if |statsWindow| >= MinSamples then Rebaseline(old(baselineMetrics), metrics, statsWindow, stats)
        else old(baselineMetrics)
      ensures rules == old(rules) && eventHistory == old(eventHistory)
    {
      var window := Bounded(statsWindow + [metrics], MaxWindow);
      statsWindow := window;
      if |window| >= MinSamples {
        var baseline := baselineMetrics;
        ghost var start := baselineMetrics;
        for i := 0 to |metrics|
          invariant baseline == Rebaseline(start, metrics[..i], window, stats)
        {
          assert metrics[..i + 1][..i] == metrics[..i];
          var (metric, _) := metrics[i];
          var values := ValuesOf(window, metric);
          if values != [] {
            baseline := Put(baseline, metric, stats(values));
          }
        }
        assert metrics[..|metrics|] == metrics;
        baselineMetrics := baseline;
      }
    }
  }

  /** `_setup_detection_rules`: the three built-in rules, in this order,
      each registered with its own event type. */
  method SetupDetectionRules(detector: EventDetector)
    requires detector.Valid()
    modifies detector
    ensures detector.Valid()
    ensures detector.rules == old(detector.rules) +
      [(OddsChangeRule, OddsChange), (ApiSpikeRule, ApiSpike), (CompetitorActivityRule, CompetitorActivity)]
    ensures forall i :: |old(detector.rules)| <= i < |detector.rules| ==> detector.rules[i].1 == RuleType(detector.rules[i].0)
    ensures detector.eventHistory == old(detector.eventHistory) && detector.statsWindow == old(detector.statsWindow)
    ensures detector.baselineMetrics == old(detector.baselineMetrics)
  {
    detector.AddRule(OddsChangeRule, OddsChange);
    detector.AddRule(ApiSpikeRule, ApiSpike);
    detector.AddRule(CompetitorActivityRule, CompetitorActivity);
  }

  /** After an update from 30 samples on, every metric of the sample has
      the statistics of its values in the window, and other baselines are
      kept. */
  lemma UpdateBaselineCovers(old_baseline: Entries<string, Stats>, window: seq<Metrics>, metrics: Metrics,
                             stats: seq<real> -> Stats, k: string, default: Stats)
    ensures var w := Bounded(window + [metrics], MaxWindow);
      k in KeySet(metrics) ==> Get(Rebaseline(old_baseline, metrics, w, stats), k, default) == stats(ValuesOf(w, k))
    ensures var w := Bounded(window + [metrics], MaxWindow);
      k !in KeySet(metrics) ==> Get(Rebaseline(old_baseline, metrics, w, stats), k, default) == Get(old_baseline, k, default)
  {
    var w := Bounded(window + [metrics], MaxWindow);
    assert w[|w| - 1] == metrics;
    assert forall i :: 0 <= i < |metrics| ==> metrics[i].0 in KeySet(metrics);
    RebaselineCovers(old_baseline, metrics, w, stats, metrics, k, default);
  }

  // ---------------------------------------------------------------------
  // Peak hours

  type Hour = h: nat | h < 24

  /** The hours of the timestamps that parse (`None` for one that does
      not), in order. */
  function HoursOf(timestamps: seq<Option<Hour>>): seq<Hour> {
    if timestamps == [] then []
    else
      var t := timestamps[|timestamps| - 1];
      HoursOf(timestamps[..|timestamps| - 1]) + (if t.Some? then [t.value] else [])
  }

  /** The three hours of most timestamps, most first; ties keep the order
      in which the hours were first seen. */
  function PeakHoursOf(timestamps: seq<Option<Hour>>): seq<Hour> {
    Keys(Top(TallyOf(HoursOf(timestamps)), 3))
  }

  lemma HoursSnoc(timestamps: seq<Option<Hour>>, i: nat)
    requires i < |timestamps|
    ensures HoursOf(timestamps[..i + 1]) ==
      HoursOf(timestamps[..i]) + if timestamps[i].Some? then [timestamps[i].value] else []
  {
    assert timestamps[..i + 1][..i] == timestamps[..i];
  }

  /** The counting loop of `_identify_peak_hours`. */
  method TallyHours(timestamps: seq<Option<Hour>>) returns (hours: Tally<Hour>)
    ensures hours == TallyOf(HoursOf(timestamps))
  {
    hours := [];
    for i := 0 to |timestamps|
      invariant hours == TallyOf(HoursOf(timestamps[..i]))
    {
      HoursSnoc(timestamps, i);
      if timestamps[i].Some? {
        TallySnoc(HoursOf(timestamps[..i]), timestamps[i].value);
        hours := Increment(hours, timestamps[i].value);
      } else {
        assert HoursOf(timestamps[..i + 1]) == HoursOf(timestamps[..i]);
      }
    }
    assert timestamps[..|timestamps|] == timestamps;
  }

  /** `_identify_peak_hours`. */
  method IdentifyPeakHours(timestamps: seq<Option<Hour>>) returns (peaks: seq<Hour>)
    ensures peaks == PeakHoursOf(timestamps)
  {
    if timestamps == [] {
      return [];
    }
    var hours := TallyHours(timestamps);
    if hours == [] {
      return [];
    }
    peaks := Keys(Top(hours, 3));
  }

  /** With distinct keys, the keys of entries of the counter look up the
      counts next to them. */
  lemma KeysCount<K(!new)>(t: Tally<K>, top: seq<(K, nat)>, i: nat)
    requires DistinctKeys(t) && i < |top| && top[i] in t
    ensures Count(t, Keys(top)[i]) == top[i].1
  {
    var k :| 0 <= k < |t| && t[k] == top[i];
    GetAt(t, k, 0);
  }

  /** At most three hours, each seen in a timestamp that parsed, and none
      without a parsable timestamp. */
  lemma PeakHoursMeans(timestamps: seq<Option<Hour>>)
    ensures |PeakHoursOf(timestamps)| <= 3
    ensures HoursOf(timestamps) == [] ==> PeakHoursOf(timestamps) == []
    ensures forall p :: p in PeakHoursOf(timestamps) ==> p in HoursOf(timestamps)
  {
    var t := TallyOf(HoursOf(timestamps));
    TallyOfKeys(HoursOf(timestamps));
    TopRanks(t, 3, (0, 0));
    var top := Top(t, 3);
    var peaks := Keys(top);
    forall i | 0 <= i < |top|
      ensures peaks[i] in KeySet(t)
    {
      KeysCount(t, top, i);
    }
  }

  /** The peak hours come in order of their counts, most frequent first. */
  lemma PeakHoursOrdered(timestamps: seq<Option<Hour>>)
    ensures var t := TallyOf(HoursOf(timestamps));
      forall i, j :: 0 <= i < j < |PeakHoursOf(timestamps)| ==>
        Count(t, PeakHoursOf(timestamps)[i]) >= Count(t, PeakHoursOf(timestamps)[j])
  {
    var t := TallyOf(HoursOf(timestamps));
    TopRanks(t, 3, (0, 0));
    var top := Top(t, 3);
    var peaks := Keys(top);
    forall i, j | 0 <= i < j < |peaks|
      ensures Count(t, peaks[i]) >= Count(t, peaks[j])
    {
      KeysCount(t, top, i);
      KeysCount(t, top, j);
      assert CountKey(top[i]) >= CountKey(top[j]);
    }
  }

  /** An hour left out of the peak hours was seen no more often than any
      hour kept. */
  lemma PeakHoursLeftOut(timestamps: seq<Option<Hour>>, h: Hour)
    requires h in HoursOf(timestamps) && h !in PeakHoursOf(timestamps)
    ensures var t := TallyOf(HoursOf(timestamps));
      forall p :: p in PeakHoursOf(timestamps) ==> Count(t, p) >= Count(t, h)
  {
    var t := TallyOf(HoursOf(timestamps));
    TallyOfKeys(HoursOf(timestamps));
    FindKeySet(t, h);
    var k := Find(t, h).value;
    var e := t[k];
    TopRanks(t, 3, e);
    var top := Top(t, 3);
    var peaks := Keys(top);
    GetAt(t, k, 0);
    forall p | p in peaks
      ensures Count(t, p) >= Count(t, h)
    {
      var i :| 0 <= i < |peaks| && peaks[i] == p;
      KeysCount(t, top, i);
      assert top[i] in top;
    }
  }
}
