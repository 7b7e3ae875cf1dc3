/** The packet analysis of ml_pattern_engine.py: the URI classifiers, the
    per-packet counters kept in the results dictionary, and the detectors
    of rapid odds changes, high-frequency endpoints and unusual betting
    activity that run once the packets are processed. */
module Packets {
  import opened Wrappers
  import opened Text
  import opened Ordered
  import Events

  /** `odds_threshold`: a relative change above 10 percent. */
  const OddsThreshold: real := 0.1
  /** `frequency_threshold`: more calls than this make an endpoint suspicious. */
  const FrequencyThreshold: nat := 10
  /** More betting events than this raise an alert. */
  const BettingActivityThreshold: nat := 100
  /** Timestamps are whole microseconds, as Python's `datetime` keeps them. */
  const MicrosPerSecond: int := 1_000_000
  const MicrosPerDay: int := 86_400_000_000
  /** Two odds changes closer than this many seconds are rapid. */
  const RapidSeconds: int := 60

  // ---------------------------------------------------------------------
  // Regular-expression pieces

  /** The longest run of characters satisfying `p` from position `i`: a
      greedy `+` or `*` group. */
  function RunFrom(s: string, i: nat, p: char -> bool): (r: string)
    requires i <= |s|
    ensures i + |r| <= |s| && r == s[i..i + |r|]
    ensures forall k :: 0 <= k < |r| ==> p(r[k])
    ensures i + |r| == |s| || !p(s[i + |r|])
    decreases |s| - i
  {
    if i < |s| && p(s[i]) then [s[i]] + RunFrom(s, i + 1, p) else []
  }

  /** A run that reaches the end of the string takes all of it. */
  lemma RunToEnd(s: string, i: nat, p: char -> bool)
    requires i <= |s| && forall k :: i <= k < |s| ==> p(s[k])
    ensures RunFrom(s, i, p) == s[i..]
  {
  }

  /** `[0-9.]`. */
  predicate IsNumberChar(c: char) {
    IsDigit(c) || c == '.'
  }

  /** `[=:]`. */
  predicate IsSeparator(c: char) {
    c == '=' || c == ':'
  }

  /** Where the group of `match[_-]?(?:id)?[=:]?([0-9]+)` starts when the
      pattern is tried at `i`. Each optional part is taken exactly when its
      characters are there: none of them can start what follows it, so
      backtracking never succeeds where the greedy choice failed. */
  function MatchIdStart(s: string, i: nat): Option<nat> {
    if !OccursAt(s, "match", i) then None
    else
      var a := i + 5;
      var b := if a < |s| && (s[a] == '_' || s[a] == '-') then a + 1 else a;
      var c := if OccursAt(s, "id", b) then b + 2 else b;
      var d := if c < |s| && IsSeparator(s[c]) then c + 1 else c;
      if d < |s| && IsDigit(s[d]) then Some(d) else None
  }

  /** `re.search` of the match-id pattern from position `i`: the digits
      of the leftmost match. */
  function MatchIdSearch(s: string, i: nat): (r: Option<string>)
    requires i <= |s|
    ensures r.None? <==> forall j :: i <= j <= |s| ==> MatchIdStart(s, j).None?
    ensures r.Some? ==> |r.value| > 0 && forall k :: 0 <= k < |r.value| ==> IsDigit(r.value[k])
    decreases |s| - i
  {
    match MatchIdStart(s, i)
    case Some(d) => Some(RunFrom(s, d, IsDigit))
    case None => if i == |s| then None else MatchIdSearch(s, i + 1)
  }

  /** `_extract_match_id`: the digits of the first match, or "unknown". */
  function ExtractMatchId(uri: string): string {
    match MatchIdSearch(uri, 0)
    case Some(digits) => digits
    case None => "unknown"
  }

  /** Where the group of `odds?[=:]([0-9.]+)` starts when the pattern is
      tried at `i`; with and without the `s` are exclusive, since `s` is
      not a separator. */
  function OddsStart(s: string, i: nat): Option<nat> {
    if OccursAt(s, "odds", i) && i + 5 < |s| && IsSeparator(s[i + 4]) && IsNumberChar(s[i + 5]) then Some(i + 5)
    else if OccursAt(s, "odd", i) && i + 4 < |s| && IsSeparator(s[i + 3]) && IsNumberChar(s[i + 4]) then Some(i + 4)
    else None
  }

  /** `re.search` of the odds pattern from position `i`: the digits and
      dots of the leftmost match. */
  function OddsSearch(s: string, i: nat): (r: Option<string>)
    requires i <= |s|
    ensures r.None? <==> forall j :: i <= j <= |s| ==> OddsStart(s, j).None?
    ensures r.Some? ==> |r.value| > 0 && forall k :: 0 <= k < |r.value| ==> IsNumberChar(r.value[k])
    decreases |s| - i
  {
    match OddsStart(s, i)
    case Some(d) => Some(RunFrom(s, d, IsNumberChar))
    case None => if i == |s| then None else OddsSearch(s, i + 1)
  }

  // ---------------------------------------------------------------------
  // Decimal numbers

  function DigitValue(c: char): nat
    requires IsDigit(c)
  {
    c as int - '0' as int
  }

  function DigitChar(n: nat): (c: char)
    requires n < 10
    ensures IsDigit(c) && DigitValue(c) == n
  {
    ('0' as int + n) as char
  }

  /** The number a string of decimal digits denotes. */
  function DigitsValue(s: string): nat
    requires forall k :: 0 <= k < |s| ==> IsDigit(s[k])
  {
    if s == [] then 0 else DigitsValue(s[..|s| - 1]) * 10 + DigitValue(s[|s| - 1])
  }

  function Pow10(n: nat): (r: nat)
    ensures r > 0
  {
    if n == 0 then 1 else 10 * Pow10(n - 1)
  }

  /** `str(n)` of a natural number. */
  function ShowNat(n: nat): (r: string)
    ensures |r| > 0 && forall k :: 0 <= k < |r| ==> IsDigit(r[k])
  {
    if n < 10 then [DigitChar(n)] else ShowNat(n / 10) + [DigitChar(n % 10)]
  }

  /** Reading back the digits of `n` gives `n`. */
  lemma {:induction false} ShowNatValue(n: nat)
    ensures DigitsValue(ShowNat(n)) == n
  {
    if n >= 10 {
      var s := ShowNat(n);
      assert s[..|s| - 1] == ShowNat(n / 10);
      ShowNatValue(n / 10);
    }
  }

  /** The first dot at or after `i`, or `|s|`. */
  function DotFrom(s: string, i: nat): (r: nat)
    requires i <= |s|
    ensures i <= r <= |s| && (r < |s| ==> s[r] == '.')
    ensures forall j :: i <= j < r ==> s[j] != '.'
    decreases |s| - i
  {
    if i == |s| || s[i] == '.' then i else DotFrom(s, i + 1)
  }

  /** Python's `float` of a string of digits and dots: the digits with at
      most one decimal point, and at least one digit; anything else raises
      `ValueError` (`None` here). */
  function ParseFloat(text: string): (r: Option<real>)
    requires forall k :: 0 <= k < |text| ==> IsNumberChar(text[k])
    ensures r.Some? ==> r.value >= 0.0
  {
    var k := DotFrom(text, 0);
    if k == |text| then
      if text == [] then None
      else
        assert forall j :: 0 <= j < |text| ==> IsDigit(text[j]) by {
          forall j | 0 <= j < |text| ensures IsDigit(text[j]) {
            assert IsNumberChar(text[j]) && text[j] != '.';
          }
        }
        Some(DigitsValue(text) as real)
    else
      var whole, fraction := text[..k], text[k + 1..];
      if DotFrom(text, k + 1) < |text| || (whole == [] && fraction == []) then None
      else
        assert forall j :: 0 <= j < |whole| ==> IsDigit(whole[j]) by {
          forall j | 0 <= j < |whole| ensures IsDigit(whole[j]) {
            assert whole[j] == text[j] && IsNumberChar(text[j]) && text[j] != '.';
          }
        }
        assert forall j :: 0 <= j < |fraction| ==> IsDigit(fraction[j]) by {
          forall j | 0 <= j < |fraction| ensures IsDigit(fraction[j]) {
            assert fraction[j] == text[k + 1 + j] && IsNumberChar(text[k + 1 + j]) && text[k + 1 + j] != '.';
          }
        }
        Some(DigitsValue(whole) as real + DigitsValue(fraction) as real / Pow10(|fraction|) as real)
  }

  /** `float` refuses exactly the strings with two dots and the strings
      of dots alone. */
  lemma ParseFloatAccepts(text: string)
    requires forall k :: 0 <= k < |text| ==> IsNumberChar(text[k])
    ensures ParseFloat(text).None? <==>
      (exists a, b :: 0 <= a < b < |text| && text[a] == '.' && text[b] == '.')
      || (forall k :: 0 <= k < |text| ==> text[k] == '.')
  {
    var k := DotFrom(text, 0);
    if k < |text| {
      var m := DotFrom(text, k + 1);
      if m < |text| {
        assert text[k] == '.' && text[m] == '.';
      } else {
        if |text| > 1 {
          var other := if k == 0 then 1 else 0;
          assert text[other] != '.';
        }
      }
    } else if text != [] {
      assert text[0] != '.';
    }
  }

  /** The digits of a number read back as that number. */
  lemma ParseFloatShowNat(n: nat)
    ensures ParseFloat(ShowNat(n)) == Some(n as real)
  {
    ShowNatValue(n);
  }

  // ---------------------------------------------------------------------
  // URI classifiers

  datatype MarketType = LiveBetting | PreMatch | InPlay | UnknownMarket

  /** `_extract_market_type`: the lower-cased URI is searched for "live",
      then "pre", then "inplay". */
  function ExtractMarketType(uri: string): MarketType {
    var lower := ToLower(uri);
    if Contains(lower, "live") then LiveBetting
    else if Contains(lower, "pre") then PreMatch
    else if Contains(lower, "inplay") then InPlay
    else UnknownMarket
  }

  lemma LowerCharIdempotent(c: char)
    ensures LowerChar(LowerChar(c)) == LowerChar(c)
  {
  }

  lemma ToLowerIdempotent(s: string)
    ensures ToLower(ToLower(s)) == ToLower(s)
  {
    forall i | 0 <= i < |s|
      ensures ToLower(ToLower(s))[i] == ToLower(s)[i]
    {
      LowerCharIdempotent(s[i]);
    }
  }

  /** The market type and the betting test ignore case: a URI and its
      lower-cased form are classified alike. */
  lemma ClassifiersIgnoreCase(uri: string)
    ensures ExtractMarketType(ToLower(uri)) == ExtractMarketType(uri)
    ensures IsBettingUri(ToLower(uri)) == IsBettingUri(uri)
  {
    ToLowerIdempotent(uri);
  }

  /** A URI naming a match by number yields that number. */
  lemma MatchIdRoundTrip(n: nat)
    ensures ExtractMatchId("match_id=" + ShowNat(n)) == ShowNat(n)
  {
    var digits := ShowNat(n);
    var s := "match_id=" + digits;
    assert s[0..5] == "match" && s[5] == '_' && s[6..8] == "id" && s[8] == '=' && s[9] == digits[0];
    assert MatchIdStart(s, 0) == Some(9);
    assert s[9..] == digits;
    RunToEnd(s, 9, IsDigit);
  }

  /** A URI quoting odds by number yields that number's digits. */
  lemma OddsRoundTrip(n: nat)
    ensures OddsSearch("odds=" + ShowNat(n), 0) == Some(ShowNat(n))
  {
    var digits := ShowNat(n);
    var s := "odds=" + digits;
    assert s[0..4] == "odds" && s[4] == '=' && s[5] == digits[0];
    assert OddsStart(s, 0) == Some(5);
    assert s[5..] == digits;
    RunToEnd(s, 5, IsNumberChar);
  }

  /** The API-call test, with Python's precedence: "/api/", or "/v"
      together with one of bet, odds and live (case-sensitive). */
  predicate IsApiCall(uri: string) {
    Contains(uri, "/api/") || (Contains(uri, "/v") && (Contains(uri, "bet") || Contains(uri, "odds") || Contains(uri, "live")))
  }

  const BettingKeywords: seq<string> := ["bet", "odds", "live", "match", "sport", "market"]

  /** Some betting keyword occurs in the lower-cased URI. */
  predicate IsBettingUri(uri: string) {
    exists k :: 0 <= k < |BettingKeywords| && Contains(ToLower(uri), BettingKeywords[k])
  }

  /** What the odds pattern yields for a URI: nothing, a value, or text
      that `float` refuses. */
  datatype OddsReading = NoOdds | OddsRead(value: real) | Unparsable

  /** The odds pattern is looked for only in betting URIs. */
  function OddsReadingOf(uri: string): OddsReading {
    if !IsBettingUri(uri) then NoOdds
    else
      match OddsSearch(uri, 0)
      case None => NoOdds
      case Some(text) =>
        match ParseFloat(text)
        case None => Unparsable
        case Some(v) => OddsRead(v)
  }

  // ---------------------------------------------------------------------
  // Packets and the values the analysis records

  datatype HttpRequest = HttpRequest(uri: Option<string>)

  /** The layers of a packet the analysis reads; a missing layer or field
      is `None`. */
  datatype Packet = Packet(
    http: Option<HttpRequest>, tlsServerName: Option<string>, ipSrc: Option<string>, ipDst: Option<string>)

  /** `OddsChange`, with its timestamp in microseconds. */
  datatype OddsChange = OddsChange(
    timestamp: int, matchId: string, marketType: MarketType, oldOdds: real, newOdds: real,
    changeMagnitude: real, sourceIp: string, apiEndpoint: string)

  /** A `CompetitorActivity` of kind `tls_handshake` and frequency 1. */
  datatype CompetitorSighting = CompetitorSighting(domain: string, timestamp: int, ip: string)

  /** A `rapid_changes` entry. */
  datatype RapidChange = RapidChange(matchId: string, magnitude: real, timespan: int)

  /** A `suspicious_endpoints` entry of type `high_frequency_api`. */
  datatype SuspiciousEndpoint = SuspiciousEndpoint(endpoint: string, frequency: nat)

  datatype AlertType = RapidOddsChanges | HighFrequencyApi | HighBettingActivity

  datatype AlertSeverity = High | Medium

  datatype AlertData =
    | RapidData(changes: seq<RapidChange>)
    | EndpointData(endpoints: seq<SuspiciousEndpoint>)
    | ActivityData(eventCount: nat, threshold: nat)

  /** A row of the `pattern_alerts` table, without its timestamp and its
      description text. */
  datatype Alert = Alert(alertType: AlertType, severity: AlertSeverity, data: AlertData)

  function OrEmpty(s: Option<string>): string {
    if s.Some? then s.value else ""
  }

  /** `http_data.get('http.request.uri', '')`. */
  function UriOf(req: HttpRequest): string {
    OrEmpty(req.uri)
  }

  /** The odds change a request records. */
  function OddsChangeOf(uri: string, ipSrc: string, now: int): seq<OddsChange> {
    match OddsReadingOf(uri)
    case OddsRead(v) => [OddsChange(now, ExtractMatchId(uri), ExtractMarketType(uri), 0.0, v, 0.0, ipSrc, uri)]
    case _ => []
  }

  /** Server names of the competitors watched. */
  predicate IsCompetitorDomain(name: string) {
    Contains(name, "betika") || Contains(name, "bet365") || Contains(name, "sportpesa")
  }

  /** The HTTP analysis of the packet raised: its later layers are not
      looked at. */
  predicate HttpRaises(p: Packet) {
    p.http.Some? && OddsReadingOf(UriOf(p.http.value)).Unparsable?
  }

  /** The URI a packet adds to the API-call counter. */
  function ApiCallOf(p: Packet): seq<string> {
    if p.http.Some? && IsApiCall(UriOf(p.http.value)) then [UriOf(p.http.value)] else []
  }

  function BettingEventOf(p: Packet): nat {
    if p.http.Some? && IsBettingUri(UriOf(p.http.value)) then 1 else 0
  }

  function PacketOddsChange(p: Packet, now: int): seq<OddsChange> {
    if p.http.Some? then OddsChangeOf(UriOf(p.http.value), OrEmpty(p.ipSrc), now) else []
  }

  function SightingOf(p: Packet, now: int): seq<CompetitorSighting> {
    if !HttpRaises(p) && p.tlsServerName.Some? && IsCompetitorDomain(p.tlsServerName.value) then
      [CompetitorSighting(p.tlsServerName.value, now, OrEmpty(p.ipDst))]
    else []
  }

  // ---------------------------------------------------------------------
  // What a batch of packets adds up to

  function ApiCallsOf(ps: seq<Packet>): seq<string> {
    if ps == [] then [] else ApiCallsOf(ps[..|ps| - 1]) + ApiCallOf(ps[|ps| - 1])
  }

  function BettingEventsOf(ps: seq<Packet>): nat {
    if ps == [] then 0 else BettingEventsOf(ps[..|ps| - 1]) + BettingEventOf(ps[|ps| - 1])
  }

  /** `clock[i]` is the time at which packet `i` is processed. */
  function OddsChangesOf(ps: seq<Packet>, clock: seq<int>): seq<OddsChange>
    requires |clock| == |ps|
  {
    if ps == [] then []
    else OddsChangesOf(ps[..|ps| - 1], clock[..|ps| - 1]) + PacketOddsChange(ps[|ps| - 1], clock[|ps| - 1])
  }

  function SightingsOf(ps: seq<Packet>, clock: seq<int>): seq<CompetitorSighting>
    requires |clock| == |ps|
  {
    if ps == [] then []
    else SightingsOf(ps[..|ps| - 1], clock[..|ps| - 1]) + SightingOf(ps[|ps| - 1], clock[|ps| - 1])
  }

  lemma PacketsSnoc(ps: seq<Packet>, clock: seq<int>, i: nat)
    requires |clock| == |ps| && i < |ps|
    ensures ApiCallsOf(ps[..i + 1]) == ApiCallsOf(ps[..i]) + ApiCallOf(ps[i])
    ensures BettingEventsOf(ps[..i + 1]) == BettingEventsOf(ps[..i]) + BettingEventOf(ps[i])
    ensures OddsChangesOf(ps[..i + 1], clock[..i + 1]) == OddsChangesOf(ps[..i], clock[..i]) + PacketOddsChange(ps[i], clock[i])
    ensures SightingsOf(ps[..i + 1], clock[..i + 1]) == SightingsOf(ps[..i], clock[..i]) + SightingOf(ps[i], clock[i])
  {
    assert ps[..i + 1][..i] == ps[..i];
    assert clock[..i + 1][..i] == clock[..i];
  }

  /** Every odds change comes with a betting event, and a packet adds at
      most one betting event. */
  lemma {:induction false} BatchCounts(ps: seq<Packet>, clock: seq<int>)
    requires |clock| == |ps|
    ensures |OddsChangesOf(ps, clock)| <= BettingEventsOf(ps) <= |ps|
    ensures |ApiCallsOf(ps)| <= |ps|
    decreases |ps|
  {
    if ps != [] {
      BatchCounts(ps[..|ps| - 1], clock[..|ps| - 1]);
    }
  }

  /** Each recorded odds change is the odds read from the betting URI of
      one packet, stamped with that packet's time. */
  lemma {:induction false} OddsChangesFromPackets(ps: seq<Packet>, clock: seq<int>, x: OddsChange)
    requires |clock| == |ps|
    ensures x in OddsChangesOf(ps, clock) ==>
      exists i :: 0 <= i < |ps| && ps[i].http.Some? && x.apiEndpoint == UriOf(ps[i].http.value)
        && IsBettingUri(x.apiEndpoint) && OddsReadingOf(x.apiEndpoint) == OddsRead(x.newOdds)
        && x.timestamp == clock[i] && x.sourceIp == OrEmpty(ps[i].ipSrc)
    decreases |ps|
  {
    if ps != [] && x in OddsChangesOf(ps, clock) {
      var n := |ps| - 1;
      OddsChangesFromPackets(ps[..n], clock[..n], x);
      if x in OddsChangesOf(ps[..n], clock[..n]) {
        var i :| 0 <= i < n && ps[..n][i].http.Some? && x.apiEndpoint == UriOf(ps[..n][i].http.value)
          && IsBettingUri(x.apiEndpoint) && OddsReadingOf(x.apiEndpoint) == OddsRead(x.newOdds)
          && x.timestamp == clock[..n][i] && x.sourceIp == OrEmpty(ps[..n][i].ipSrc);
        assert ps[..n][i] == ps[i];
      } else {
        assert x in PacketOddsChange(ps[n], clock[n]);
      }
    }
  }

  /** The API-call counter counts exactly the packets whose URI is an API
      call. */
  lemma {:induction false} ApiCallsFromPackets(ps: seq<Packet>, u: string)
    ensures u in ApiCallsOf(ps) <==>
      exists i :: 0 <= i < |ps| && ps[i].http.Some? && UriOf(ps[i].http.value) == u && IsApiCall(u)
    decreases |ps|
  {
    if ps != [] {
      var n := |ps| - 1;
      ApiCallsFromPackets(ps[..n], u);
      if exists i :: 0 <= i < |ps| && ps[i].http.Some? && UriOf(ps[i].http.value) == u && IsApiCall(u) {
        var i :| 0 <= i < |ps| && ps[i].http.Some? && UriOf(ps[i].http.value) == u && IsApiCall(u);
        if i < n {
          assert ps[..n][i] == ps[i];
        }
      }
      if u in ApiCallsOf(ps[..n]) {
        var i :| 0 <= i < n && ps[..n][i].http.Some? && UriOf(ps[..n][i].http.value) == u && IsApiCall(u);
        assert ps[..n][i] == ps[i];
      }
    }
  }

  // ---------------------------------------------------------------------
  // The detectors

  /** `timedelta.seconds` of a difference of timestamps: the seconds
      within the last day of the difference, not the whole difference. */
  function SecondsField(deltaMicros: int): int {
    (deltaMicros % MicrosPerDay) / MicrosPerSecond
  }

  /** One pair of consecutive odds changes, as the loop of
      `_detect_odds_patterns` is written. */
  function RapidPairAsWritten(previous: OddsChange, current: OddsChange): Result<Option<RapidChange>, string> {
    var span := SecondsField(current.timestamp - previous.timestamp);
    if span < RapidSeconds then
      if previous.newOdds == 0.0 then Err("ZeroDivisionError")
      else
        var magnitude := Events.Abs(current.newOdds - previous.newOdds) / previous.newOdds;
        if magnitude > OddsThreshold then Ok(Some(RapidChange(current.matchId, magnitude, span))) else Ok(None)
    else Ok(None)
  }

  /** The loop of `_detect_odds_patterns` as written: the first zero
      previous odds within the window raises. */
  function RapidChangesAsWritten(cs: seq<OddsChange>): Result<seq<RapidChange>, string> {
    if |cs| < 2 then Ok([])
    else
      match RapidChangesAsWritten(cs[..|cs| - 1])
      case Err(e) => Err(e)
      case Ok(found) =>
        match RapidPairAsWritten(cs[|cs| - 2], cs[|cs| - 1])
        case Err(e) => Err(e)
        case Ok(pair) => Ok(found + if pair.Some? then [pair.value] else [])
  }

  /** One pair of consecutive odds changes: rapid when the second came
      less than a minute after the first and the odds moved by more than
      10 percent of positive previous odds. */
  function RapidPair(previous: OddsChange, current: OddsChange): Option<RapidChange> {
    var elapsed := current.timestamp - previous.timestamp;
    if 0 <= elapsed < RapidSeconds * MicrosPerSecond then
      var magnitude := Events.ChangeRatio(current.newOdds, previous.newOdds);
      if magnitude > OddsThreshold then Some(RapidChange(current.matchId, magnitude, elapsed / MicrosPerSecond)) else None
    else None
  }

  function RapidChanges(cs: seq<OddsChange>): seq<RapidChange> {
    if |cs| < 2 then []
    else RapidChanges(cs[..|cs| - 1]) + if RapidPair(cs[|cs| - 2], cs[|cs| - 1]).Some? then [RapidPair(cs[|cs| - 2], cs[|cs| - 1]).value] else []
  }

  /** A pair is rapid exactly when it is less than a minute apart and the
      odds moved by more than a tenth of the positive previous odds. */
  lemma RapidPairMeans(previous: OddsChange, current: OddsChange)
    ensures RapidPair(previous, current).Some? <==>
      && 0 <= current.timestamp - previous.timestamp < RapidSeconds * MicrosPerSecond
      && previous.newOdds > 0.0
      && Events.Abs(current.newOdds - previous.newOdds) > OddsThreshold * previous.newOdds
    ensures RapidPair(previous, current).Some? ==>
      var r := RapidPair(previous, current).value;
      r.matchId == current.matchId && r.magnitude > OddsThreshold && 0 <= r.timespan < RapidSeconds
  {
    if previous.newOdds > 0.0 {
      Events.RatioAbove(Events.Abs(current.newOdds - previous.newOdds), previous.newOdds, OddsThreshold);
    }
  }

  /** With fewer than two changes nothing is rapid, and there is at most
      one rapid change per consecutive pair. */
  lemma {:induction false} RapidChangesCount(cs: seq<OddsChange>)
    ensures |cs| < 2 ==> RapidChanges(cs) == []
    ensures |cs| >= 2 ==> |RapidChanges(cs)| <= |cs| - 1
    decreases |cs|
  {
    if |cs| >= 2 {
      RapidChangesCount(cs[..|cs| - 1]);
    }
  }

  /** The rapid changes are exactly the rapid consecutive pairs. */
  lemma {:induction false} RapidChangesMeans(cs: seq<OddsChange>, x: RapidChange)
    ensures x in RapidChanges(cs) <==> exists i :: 1 <= i < |cs| && RapidPair(cs[i - 1], cs[i]) == Some(x)
  {
    if x in RapidChanges(cs) {
      RapidChangesSound(cs, x);
    }
    if exists i :: 1 <= i < |cs| && RapidPair(cs[i - 1], cs[i]) == Some(x) {
      var i :| 1 <= i < |cs| && RapidPair(cs[i - 1], cs[i]) == Some(x);
      RapidChangesComplete(cs, i);
    }
  }

  lemma {:induction false} RapidChangesSound(cs: seq<OddsChange>, x: RapidChange)
    requires x in RapidChanges(cs)
    ensures exists i :: 1 <= i < |cs| && RapidPair(cs[i - 1], cs[i]) == Some(x)
    decreases |cs|
  {
    var n := |cs| - 1;
    var init := cs[..n];
    if x in RapidChanges(init) {
      RapidChangesSound(init, x);
      var i :| 1 <= i < |init| && RapidPair(init[i - 1], init[i]) == Some(x);
      assert init[i - 1] == cs[i - 1] && init[i] == cs[i];
    } else {
      assert RapidPair(cs[n - 1], cs[n]) == Some(x);
    }
  }

  lemma {:induction false} RapidChangesComplete(cs: seq<OddsChange>, i: nat)
    requires 1 <= i < |cs| && RapidPair(cs[i - 1], cs[i]).Some?
    ensures RapidPair(cs[i - 1], cs[i]).value in RapidChanges(cs)
    decreases |cs|
  {
    var n := |cs| - 1;
    var init := cs[..n];
    if i < n {
      assert init[i - 1] == cs[i - 1] && init[i] == cs[i];
      RapidChangesComplete(init, i);
    }
  }

  /** Where no pair within the window starts from zero odds and the clock
      moved forward by less than a day, the loop as written finds what the
      corrected one finds. */
  lemma {:induction false} RapidChangesAsWrittenAgrees(cs: seq<OddsChange>)
    requires forall i :: 0 <= i < |cs| - 1 ==> cs[i].newOdds > 0.0
    requires forall i :: 0 <= i < |cs| - 1 ==> 0 <= cs[i + 1].timestamp - cs[i].timestamp < MicrosPerDay
    ensures RapidChangesAsWritten(cs) == Ok(RapidChanges(cs))
    decreases |cs|
  {
    if |cs| >= 2 {
      var n := |cs| - 1;
      RapidChangesAsWrittenAgrees(cs[..n]);
      PairAgrees(cs[n - 1], cs[n]);
    }
  }

  lemma PairAgrees(previous: OddsChange, current: OddsChange)
    requires previous.newOdds > 0.0
    requires 0 <= current.timestamp - previous.timestamp < MicrosPerDay
    ensures RapidPairAsWritten(previous, current) == Ok(RapidPair(previous, current))
  {
    var delta := current.timestamp - previous.timestamp;
    assert delta % MicrosPerDay == delta;
    assert delta / MicrosPerSecond < RapidSeconds <==> delta < RapidSeconds * MicrosPerSecond;
  }

  /** Odds of 0 followed a second later by odds of 2: the loop as written
      divides by zero, and the exception escapes the whole analysis. */
  lemma ZeroOddsRaise()
    ensures var cs := [OddsChange(0, "1", LiveBetting, 0.0, 0.0, 0.0, "", "/live/bet?odds=0"),
                       OddsChange(MicrosPerSecond, "1", LiveBetting, 0.0, 2.0, 0.0, "", "/live/bet?odds=2")];
      RapidChangesAsWritten(cs).Err? && RapidChanges(cs) == []
  {
    var cs := [OddsChange(0, "1", LiveBetting, 0.0, 0.0, 0.0, "", "/live/bet?odds=0"),
               OddsChange(MicrosPerSecond, "1", LiveBetting, 0.0, 2.0, 0.0, "", "/live/bet?odds=2")];
    assert cs[..1] == [cs[0]];
    assert SecondsField(MicrosPerSecond) == 1;
  }

  /** Odds of 2 and then 3 a day and 30 seconds later: the loop as
      written reads only the seconds part of the difference and flags the
      pair as rapid, with a timespan of 30 seconds. */
  lemma DayApartIsRapid()
    ensures var cs := [OddsChange(0, "1", PreMatch, 0.0, 2.0, 0.0, "", "/pre/odds=2"),
                       OddsChange(MicrosPerDay + 30 * MicrosPerSecond, "1", PreMatch, 0.0, 3.0, 0.0, "", "/pre/odds=3")];
      RapidChangesAsWritten(cs) == Ok([RapidChange("1", 0.5, 30)]) && RapidChanges(cs) == []
  {
    var cs := [OddsChange(0, "1", PreMatch, 0.0, 2.0, 0.0, "", "/pre/odds=2"),
               OddsChange(MicrosPerDay + 30 * MicrosPerSecond, "1", PreMatch, 0.0, 3.0, 0.0, "", "/pre/odds=3")];
    assert cs[..1] == [cs[0]];
    assert SecondsField(MicrosPerDay + 30 * MicrosPerSecond) == 30;
    assert Events.Abs(3.0 - 2.0) / 2.0 == 0.5;
    assert RapidPairAsWritten(cs[0], cs[1]) == Ok(Some(RapidChange("1", 0.5, 30)));
    assert RapidPair(cs[0], cs[1]) == None;
    assert RapidChangesAsWritten(cs[..1]) == Ok([]) && RapidChanges(cs[..1]) == [];
    assert [] + [RapidChange("1", 0.5, 30)] == [RapidChange("1", 0.5, 30)];
  }

  /** The loop of `_detect_odds_patterns` over consecutive pairs. */
  method FindRapidChanges(cs: seq<OddsChange>) returns (rapid: seq<RapidChange>)
    ensures rapid == RapidChanges(cs)
  {
    rapid := [];
    if |cs| < 2 {
      return;
    }
    for i := 1 to |cs|
      invariant rapid == RapidChanges(cs[..i])
    {
      assert cs[..i + 1][..i] == cs[..i];
      var pair := RapidPair(cs[i - 1], cs[i]);
      if pair.Some? {
        rapid := rapid + [pair.value];
      }
    }
    assert cs[..|cs|] == cs;
  }

  /** The endpoints called more than ten times, in counter order. */
  function HighFrequency(apiCalls: Tally<string>): seq<SuspiciousEndpoint> {
    if apiCalls == [] then []
    else
      var (endpoint, count) := apiCalls[|apiCalls| - 1];
      HighFrequency(apiCalls[..|apiCalls| - 1]) + if count > FrequencyThreshold then [SuspiciousEndpoint(endpoint, count)] else []
  }

  /** An endpoint is reported, with its number of calls, exactly when it
      was called more than ten times. */
  lemma {:induction false} HighFrequencyMeans(apiCalls: Tally<string>, x: SuspiciousEndpoint)
    ensures x in HighFrequency(apiCalls) <==> (x.endpoint, x.frequency) in apiCalls && x.frequency > FrequencyThreshold
    decreases |apiCalls|
  {
    if apiCalls != [] {
      var n := |apiCalls| - 1;
      var init, last := apiCalls[..n], apiCalls[n];
      HighFrequencyMeans(init, x);
      assert apiCalls == init + [last];
      assert (x.endpoint, x.frequency) in apiCalls <==> (x.endpoint, x.frequency) in init || last == (x.endpoint, x.frequency);
      assert x in HighFrequency(apiCalls) <==>
        x in HighFrequency(init) || (last.1 > FrequencyThreshold && x == SuspiciousEndpoint(last.0, last.1));
    }
  }

  /** The loop of `_detect_user_patterns` over the counter. */
  method FindHighFrequency(apiCalls: Tally<string>) returns (endpoints: seq<SuspiciousEndpoint>)
    ensures endpoints == HighFrequency(apiCalls)
  {
    endpoints := [];
    for i := 0 to |apiCalls|
      invariant endpoints == HighFrequency(apiCalls[..i])
    {
      assert apiCalls[..i + 1][..i] == apiCalls[..i];
      var (endpoint, count) := apiCalls[i];
      if count > FrequencyThreshold {
        endpoints := endpoints + [SuspiciousEndpoint(endpoint, count)];
      }
    }
    assert apiCalls[..|apiCalls|] == apiCalls;
  }

  /** The alert `_detect_odds_patterns` stores, if any. */
  function OddsAlert(oddsChanges: seq<OddsChange>): seq<Alert> {
    if |oddsChanges| < 2 || RapidChanges(oddsChanges) == [] then []
    else [Alert(RapidOddsChanges, High, RapidData(RapidChanges(oddsChanges)))]
  }

  /** The alert `_detect_user_patterns` stores, if any. */
  function UserAlert(apiCalls: Tally<string>): seq<Alert> {
    if HighFrequency(apiCalls) == [] then [] else [Alert(HighFrequencyApi, Medium, EndpointData(HighFrequency(apiCalls)))]
  }

  /** The alert `_detect_anomalies` stores, if any. */
  function ActivityAlert(bettingEvents: nat): seq<Alert> {
    if bettingEvents > BettingActivityThreshold then
      [Alert(HighBettingActivity, Medium, ActivityData(bettingEvents, BettingActivityThreshold))]
    else []
  }

  /** Each detector raises its alert exactly when its threshold is
      crossed, and carries what crossed it. */
  lemma AlertsMean(oddsChanges: seq<OddsChange>, apiCalls: Tally<string>, bettingEvents: nat)
    ensures |OddsAlert(oddsChanges)| == 1 <==>
      exists i :: 1 <= i < |oddsChanges| && RapidPair(oddsChanges[i - 1], oddsChanges[i]).Some?
    ensures |UserAlert(apiCalls)| == 1 <==> exists k :: 0 <= k < |apiCalls| && apiCalls[k].1 > FrequencyThreshold
    ensures |ActivityAlert(bettingEvents)| == 1 <==> bettingEvents > 100
  {
    if exists i :: 1 <= i < |oddsChanges| && RapidPair(oddsChanges[i - 1], oddsChanges[i]).Some? {
      var i :| 1 <= i < |oddsChanges| && RapidPair(oddsChanges[i - 1], oddsChanges[i]).Some?;
      RapidChangesMeans(oddsChanges, RapidPair(oddsChanges[i - 1], oddsChanges[i]).value);
    }
    if RapidChanges(oddsChanges) != [] {
      RapidChangesMeans(oddsChanges, RapidChanges(oddsChanges)[0]);
    }
    if exists k :: 0 <= k < |apiCalls| && apiCalls[k].1 > FrequencyThreshold {
      var k :| 0 <= k < |apiCalls| && apiCalls[k].1 > FrequencyThreshold;
      HighFrequencyMeans(apiCalls, SuspiciousEndpoint(apiCalls[k].0, apiCalls[k].1));
    }
    if HighFrequency(apiCalls) != [] {
      var x := HighFrequency(apiCalls)[0];
      HighFrequencyMeans(apiCalls, x);
      var k :| 0 <= k < |apiCalls| && apiCalls[k] == (x.endpoint, x.frequency);
    }
  }

  // ---------------------------------------------------------------------
  // The results dictionary

  class PacketAnalysis {
    var totalPackets: nat
    var bettingEvents: nat
    var oddsChanges: seq<OddsChange>
    var apiCalls: Tally<string>
    var suspiciousActivity: seq<SuspiciousEndpoint>
    /** `competitor_activity`, a key that appears with the first sighting. */
    var competitorActivity: seq<CompetitorSighting>
    /** The rows `_create_alert` writes to the `pattern_alerts` table. */
    var alerts: seq<Alert>

    /** Every odds change was counted as a betting event, and the counter
      holds each endpoint once. */
    ghost predicate Valid()
      reads this
    {
      DistinctKeys(apiCalls) && |oddsChanges| <= bettingEvents
    }

    /** `analysis_results` before the first packet. */
    constructor(totalPackets: nat)
      ensures Valid()
      ensures this.totalPackets == totalPackets && bettingEvents == 0 && oddsChanges == [] && apiCalls == []
      ensures suspiciousActivity == [] && competitorActivity == [] && alerts == []
    {
      this.totalPackets := totalPackets;
      bettingEvents, oddsChanges, apiCalls := 0, [], [];
      suspiciousActivity, competitorActivity, alerts := [], [], [];
    }

    /** `_analyze_http_request`: the API counter, then the betting counter,
      then the odds change; `raised` when `float` refused the odds text,
      after both counters were updated. */
    method AnalyzeHttpRequest(req: HttpRequest, ipSrc: string, now: int) returns (raised: bool)
      requires Valid()
      modifies this
      ensures Valid()
      ensures var uri := UriOf(req);
        && apiCalls == (if IsApiCall(uri) then Increment(old(apiCalls), uri) else old(apiCalls))
        && bettingEvents == old(bettingEvents) + (if IsBettingUri(uri) then 1 else 0)
        && oddsChanges == old(oddsChanges) + OddsChangeOf(uri, ipSrc, now)
        && (raised <==> OddsReadingOf(uri).Unparsable?)
      ensures totalPackets == old(totalPackets) && suspiciousActivity == old(suspiciousActivity)
      ensures competitorActivity == old(competitorActivity) && alerts == old(alerts)
    {
      var uri := UriOf(req);
      if IsApiCall(uri) {
        apiCalls := Increment(apiCalls, uri);
      }
      if IsBettingUri(uri) {
        bettingEvents := bettingEvents + 1;
        var text := OddsSearch(uri, 0);
        if text.Some? {
          var value := ParseFloat(text.value);
          if value.None? {
            return true;
          }
          oddsChanges := oddsChanges + [OddsChange(now, ExtractMatchId(uri), ExtractMarketType(uri), 0.0, value.value, 0.0, ipSrc, uri)];
        }
      }
      return false;
    }

    /** `_analyze_tls_handshake`: a handshake with a watched competitor is
      recorded. */
    method AnalyzeTlsHandshake(serverName: Option<string>, ipDst: string, now: int)
      requires Valid()
      modifies this
      ensures Valid()
      ensures competitorActivity == old(competitorActivity) +
        if serverName.Some? && IsCompetitorDomain(serverName.value) then [CompetitorSighting(serverName.value, now, ipDst)] else []
      ensures totalPackets == old(totalPackets) && bettingEvents == old(bettingEvents) && oddsChanges == old(oddsChanges)
      ensures apiCalls == old(apiCalls) && suspiciousActivity == old(suspiciousActivity) && alerts == old(alerts)
    {
      if serverName.Some? && IsCompetitorDomain(serverName.value) {
        competitorActivity := competitorActivity + [CompetitorSighting(serverName.value, now, ipDst)];
      }
    }

    /** `_process_packet`: the HTTP layer, then the TLS layer, unless the
      HTTP analysis raised. */
    method ProcessPacket(p: Packet, now: int)
      requires Valid()
      modifies this
      ensures Valid()
      ensures apiCalls == if ApiCallOf(p) == [] then old(apiCalls) else Increment(old(apiCalls), ApiCallOf(p)[0])
      ensures bettingEvents == old(bettingEvents) + BettingEventOf(p)
      ensures oddsChanges == old(oddsChanges) + PacketOddsChange(p, now)
      ensures competitorActivity == old(competitorActivity) + SightingOf(p, now)
      ensures totalPackets == old(totalPackets) && suspiciousActivity == old(suspiciousActivity) && alerts == old(alerts)
    {
      var raised := false;
      if p.http.Some? {
        raised := AnalyzeHttpRequest(p.http.value, OrEmpty(p.ipSrc), now);
      }
      if !raised {
        AnalyzeTlsHandshake(p.tlsServerName, OrEmpty(p.ipDst), now);
      }
    }

    /** The loop of `analyze_http_packets`: every packet in order,
      `clock[i]` being the time packet `i` is processed. */
    method ProcessPackets(packets: seq<Packet>, clock: seq<int>)
      requires Valid() && |clock| == |packets|
      requires apiCalls == [] && bettingEvents == 0 && oddsChanges == [] && competitorActivity == []
      modifies this
      ensures Valid()
      ensures apiCalls == TallyOf(ApiCallsOf(packets))
      ensures bettingEvents == BettingEventsOf(packets)
      ensures oddsChanges == OddsChangesOf(packets, clock)
      ensures competitorActivity == SightingsOf(packets, clock)
      ensures totalPackets == old(totalPackets) && suspiciousActivity == old(suspiciousActivity) && alerts == old(alerts)
    {
      for i := 0 to |packets|
        invariant Valid()
        invariant apiCalls == TallyOf(ApiCallsOf(packets[..i]))
        invariant bettingEvents == BettingEventsOf(packets[..i])
        invariant oddsChanges == OddsChangesOf(packets[..i], clock[..i])
        invariant competitorActivity == SightingsOf(packets[..i], clock[..i])
        invariant totalPackets == old(totalPackets) && suspiciousActivity == old(suspiciousActivity) && alerts == old(alerts)
      {
        PacketsSnoc(packets, clock, i);
        ghost var before := ApiCallsOf(packets[..i]);
        if ApiCallOf(packets[i]) != [] {
          var uri := ApiCallOf(packets[i])[0];
          assert ApiCallsOf(packets[..i + 1]) == before + [uri];
          TallySnoc(before, uri);
        } else {
          assert ApiCallsOf(packets[..i + 1]) == before;
        }
        ProcessPacket(packets[i], clock[i]);
      }
      assert packets[..|packets|] == packets;
      assert clock[..|clock|] == clock;
    }

    /** `_detect_odds_patterns`. */
    method DetectOddsPatterns()
      requires Valid()
      modifies this
      ensures Valid()
      ensures alerts == old(alerts) + OddsAlert(oddsChanges)
      ensures totalPackets == old(totalPackets) && bettingEvents == old(bettingEvents) && oddsChanges == old(oddsChanges)
      ensures apiCalls == old(apiCalls) && suspiciousActivity == old(suspiciousActivity)
      ensures competitorActivity == old(competitorActivity)
    {
      if |oddsChanges| < 2 {
        return;
      }
      var rapid := FindRapidChanges(oddsChanges);
      if rapid != [] {
        alerts := alerts + [Alert(RapidOddsChanges, High, RapidData(rapid))];
      }
    }

    /** `_detect_user_patterns`. */
    method DetectUserPatterns()
      requires Valid()
      modifies this
      ensures Valid()
      ensures suspiciousActivity == old(suspiciousActivity) + HighFrequency(apiCalls)
      ensures alerts == old(alerts) + UserAlert(apiCalls)
      ensures totalPackets == old(totalPackets) && bettingEvents == old(bettingEvents) && oddsChanges == old(oddsChanges)
      ensures apiCalls == old(apiCalls) && competitorActivity == old(competitorActivity)
    {
      var endpoints := FindHighFrequency(apiCalls);
      if endpoints != [] {
        suspiciousActivity := suspiciousActivity + endpoints;
        alerts := alerts + [Alert(HighFrequencyApi, Medium, EndpointData(endpoints))];
      }
    }

    /** `_detect_anomalies`. */
    method DetectAnomalies()
      requires Valid()
      modifies this
      ensures Valid()
      ensures alerts == old(alerts) + ActivityAlert(bettingEvents)
      ensures totalPackets == old(totalPackets) && bettingEvents == old(bettingEvents) && oddsChanges == old(oddsChanges)
      ensures apiCalls == old(apiCalls) && suspiciousActivity == old(suspiciousActivity)
      ensures competitorActivity == old(competitorActivity)
    {
      if bettingEvents > BettingActivityThreshold {
        alerts := alerts + [Alert(HighBettingActivity, Medium, ActivityData(bettingEvents, BettingActivityThreshold))];
      }
    }
  }

  /** `analyze_http_packets` on the packets read from the file: every
      packet in order (`clock[i]` is the time packet `i` is processed),
      then the three detectors. */
  method AnalyzeHttpPackets(packets: seq<Packet>, clock: seq<int>) returns (r: PacketAnalysis)
    requires |clock| == |packets|
    ensures fresh(r) && r.Valid()
    ensures r.totalPackets == |packets|
    ensures r.apiCalls == TallyOf(ApiCallsOf(packets))
    ensures r.bettingEvents == BettingEventsOf(packets)
    ensures r.oddsChanges == OddsChangesOf(packets, clock)
    ensures r.competitorActivity == SightingsOf(packets, clock)
    ensures r.suspiciousActivity == HighFrequency(r.apiCalls)
    ensures r.alerts == OddsAlert(r.oddsChanges) + UserAlert(r.apiCalls) + ActivityAlert(r.bettingEvents)
  {
    r := new PacketAnalysis(|packets|);
    r.ProcessPackets(packets, clock);
    r.DetectOddsPatterns();
    assert r.alerts == OddsAlert(r.oddsChanges);
    r.DetectUserPatterns();
    assert r.alerts == OddsAlert(r.oddsChanges) + UserAlert(r.apiCalls);
    r.DetectAnomalies();
  }
}
