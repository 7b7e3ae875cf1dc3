/** The jackpot prediction analyzer of jackpot_prediction_analyzer.js:
    team names parsed from match texts, odds buckets, the counters of
    the captured jackpot data, the summaries of the external
    intelligence, the data-quality score and the prediction insights. */
module Jackpot {
  import opened Wrappers
  import opened Text
  import opened Ordered
  import opened Ensemble
  import opened Classifier
  import opened IntelligenceReport

  // ---------------------------------------------------------------------
  // Team names

  /** The separators tried, in order. */
  const Separators: seq<string> := [" vs ", " v ", " - ", " : "]

  /** `part.trim().replace(/[^\w\s]/g, '').trim()`. */
  function Clean(part: string): (r: string)
    ensures forall c :: c in r ==> IsWordChar(c) || IsSpace(c)
    ensures r == [] || (!IsSpace(r[0]) && !IsSpace(r[|r| - 1]))
  {
    Trim(KeepWordAndSpace(Trim(part)))
  }

  /** A cleaned name is kept when it has 3 to 29 characters. */
  predicate Acceptable(name: string) {
    2 < |name| < 30
  }

  /** The cleaned parts that are kept, in order. */
  function KeptNames(parts: seq<string>): seq<string> {
    if parts == [] then []
    else
      var name := Clean(parts[|parts| - 1]);
      KeptNames(parts[..|parts| - 1]) + (if Acceptable(name) then [name] else [])
  }

  lemma {:induction false} KeptNamesShape(parts: seq<string>)
    ensures |KeptNames(parts)| <= |parts|
    ensures forall name :: name in KeptNames(parts) ==>
      Acceptable(name) && (forall c :: c in name ==> IsWordChar(c) || IsSpace(c))
  {
    if parts != [] {
      var init := parts[..|parts| - 1];
      var name := Clean(parts[|parts| - 1]);
      KeptNamesShape(init);
      var kept := KeptNames(init) + (if Acceptable(name) then [name] else []);
      assert KeptNames(parts) == kept;
      forall n | n in kept
        ensures Acceptable(n) && (forall c :: c in n ==> IsWordChar(c) || IsSpace(c))
      {
        if n !in KeptNames(init) {
          assert n == name;
        }
      }
    }
  }

  /** The separator at index `k` splits the text into exactly two parts. */
  predicate SplitsInTwo(text: string, k: nat)
    requires k < |Separators|
  {
    Contains(text, Separators[k]) && |Split(text, Separators[k])| == 2
  }

  /** The first separator, from index `k` on, that splits the text in two. */
  function SeparatorFrom(text: string, k: nat): (r: Option<nat>)
    requires k <= |Separators|
    ensures r.Some? ==> k <= r.value < |Separators| && SplitsInTwo(text, r.value)
    ensures r.Some? ==> forall j :: k <= j < r.value ==> !SplitsInTwo(text, j)
    ensures r.None? ==> forall j :: k <= j < |Separators| ==> !SplitsInTwo(text, j)
    decreases |Separators| - k
  {
    if k == |Separators| then None
    else if SplitsInTwo(text, k) then Some(k)
    else SeparatorFrom(text, k + 1)
  }

  /** The names `extractTeamNames` returns. */
  function TeamNames(text: string): seq<string> {
    match SeparatorFrom(text, 0)
    case None => []
    case Some(k) => KeptNames(Split(text, Separators[k]))
  }

  /** At most two names, each of 3 to 29 word or space characters. */
  lemma TeamNamesShape(text: string)
    ensures |TeamNames(text)| <= 2
    ensures forall name :: name in TeamNames(text) ==>
      3 <= |name| <= 29 && (forall c :: c in name ==> IsWordChar(c) || IsSpace(c))
    ensures SeparatorFrom(text, 0).None? ==> TeamNames(text) == []
  {
    match SeparatorFrom(text, 0)
    case None =>
    case Some(k) => KeptNamesShape(Split(text, Separators[k]));
  }

  /** One more part considered. */
  lemma KeptNamesSnoc(parts: seq<string>, j: nat)
    requires j < |parts|
    ensures KeptNames(parts[..j + 1])
         == KeptNames(parts[..j]) + (if Acceptable(Clean(parts[j])) then [Clean(parts[j])] else [])
  {
    assert parts[..j + 1][..j] == parts[..j];
  }

  /** `extractTeamNames`. */
  method ExtractTeamNames(matchText: string) returns (teams: seq<string>)
    ensures teams == TeamNames(matchText)
  {
    teams := [];
    for i := 0 to |Separators|
      invariant SeparatorFrom(matchText, 0) == SeparatorFrom(matchText, i)
      invariant teams == []
    {
      var sep := Separators[i];
      if Contains(matchText, sep) {
        var parts := Split(matchText, sep);
        if |parts| == 2 {
          assert SplitsInTwo(matchText, i);
          for j := 0 to |parts|
            invariant teams == KeptNames(parts[..j])
          {
            KeptNamesSnoc(parts, j);
            var cleaned := Clean(parts[j]);
            if Acceptable(cleaned) {
              teams := teams + [cleaned];
            } else {
              assert teams + [] == teams;
            }
          }
          assert parts[..|parts|] == parts;
          return;
        }
      }
    }
  }

  // ---------------------------------------------------------------------
  // Odds buckets

  /** The buckets of `categorizeOdds`, from low to high odds. */
  datatype OddsRange = LowOdds | MediumLowOdds | MediumOdds | MediumHighOdds | HighOdds

  /** `categorizeOdds`: inclusive upper bounds 1.5, 2.0, 3.0 and 5.0. */
  function CategorizeOdds(value: real): OddsRange {
    if value <= 1.5 then LowOdds
    else if value <= 2.0 then MediumLowOdds
    else if value <= 3.0 then MediumOdds
    else if value <= 5.0 then MediumHighOdds
    else HighOdds
  }

  function RangeRank(r: OddsRange): nat {
    match r
    case LowOdds => 0
    case MediumLowOdds => 1
    case MediumOdds => 2
    case MediumHighOdds => 3
    case HighOdds => 4
  }

  /** The bounds of each bucket: above the previous bucket's bound, at
      most its own. */
  function LowerBound(r: OddsRange): Option<real> {
    match r
    case LowOdds => None
    case MediumLowOdds => Some(1.5)
    case MediumOdds => Some(2.0)
    case MediumHighOdds => Some(3.0)
    case HighOdds => Some(5.0)
  }

  function UpperBound(r: OddsRange): Option<real> {
    match r
    case LowOdds => Some(1.5)
    case MediumLowOdds => Some(2.0)
    case MediumOdds => Some(3.0)
    case MediumHighOdds => Some(5.0)
    case HighOdds => None
  }

  /** Every value falls in exactly the bucket whose half-open interval
      (lower, upper] holds it. */
  lemma CategorizeOddsIntervals(value: real, r: OddsRange)
    ensures CategorizeOdds(value) == r <==>
      (LowerBound(r).None? || LowerBound(r).value < value) && (UpperBound(r).None? || value <= UpperBound(r).value)
  {
  }

  /** Larger odds never fall in a lower bucket. */
  lemma CategorizeOddsMonotone(v: real, w: real)
    requires v <= w
    ensures RangeRank(CategorizeOdds(v)) <= RangeRank(CategorizeOdds(w))
  {
  }

  // ---------------------------------------------------------------------
  // The counters of `analyzeJackpotPatterns`

  datatype MatchItem = MatchItem(text: string)

  /** A captured jackpot item: its type, its matches, the dates of its
      elements (for a `date_match` item) and its JSON text. Missing lists
      are empty. */
  datatype JackpotItem = JackpotItem(kind: string, matches: seq<MatchItem>, dates: seq<string>, json: string)

  /** A captured odds item: `parseFloat` of each odd's value, `None` for
      NaN. Missing lists are empty. */
  datatype OddsItem = OddsItem(values: seq<Option<real>>)

  datatype MatchType = VsMatch | VMatch

  /** " vs " takes precedence over " v ". */
  function MatchTypeOf(text: string): seq<MatchType> {
    if Contains(text, " vs ") then [VsMatch]
    else if Contains(text, " v ") then [VMatch]
    else []
  }

  /** The team names of the matches, in order. */
  function NamesOfMatches(ms: seq<MatchItem>): seq<string> {
    if ms == [] then [] else NamesOfMatches(ms[..|ms| - 1]) + TeamNames(ms[|ms| - 1].text)
  }

  function TypesOfMatches(ms: seq<MatchItem>): seq<MatchType> {
    if ms == [] then [] else TypesOfMatches(ms[..|ms| - 1]) + MatchTypeOf(ms[|ms| - 1].text)
  }

  function NamesOf(items: seq<JackpotItem>): seq<string> {
    if items == [] then [] else NamesOf(items[..|items| - 1]) + NamesOfMatches(items[|items| - 1].matches)
  }

  function TypesOf(items: seq<JackpotItem>): seq<MatchType> {
    if items == [] then [] else TypesOf(items[..|items| - 1]) + TypesOfMatches(items[|items| - 1].matches)
  }

  /** The dates of the `date_match` items' elements. */
  function DatesOf(items: seq<JackpotItem>): seq<string> {
    if items == [] then []
    else DatesOf(items[..|items| - 1]) + (if items[|items| - 1].kind == "date_match" then items[|items| - 1].dates else [])
  }

  /** The bucket of every odd that parsed, in order. */
  function RangesOfValues(vs: seq<Option<real>>): seq<OddsRange> {
    if vs == [] then []
    else RangesOfValues(vs[..|vs| - 1]) + (if vs[|vs| - 1].Some? then [CategorizeOdds(vs[|vs| - 1].value)] else [])
  }

  function RangesOf(items: seq<OddsItem>): seq<OddsRange> {
    if items == [] then [] else RangesOf(items[..|items| - 1]) + RangesOfValues(items[|items| - 1].values)
  }

  /** One more match, or item, considered by the collectors above. */
  lemma MatchesSnoc(names: seq<string>, types: seq<MatchType>, ms: seq<MatchItem>, j: nat)
    requires j < |ms|
    ensures names + NamesOfMatches(ms[..j + 1]) == (names + NamesOfMatches(ms[..j])) + TeamNames(ms[j].text)
    ensures types + TypesOfMatches(ms[..j + 1]) == (types + TypesOfMatches(ms[..j])) + MatchTypeOf(ms[j].text)
  {
    assert ms[..j + 1][..j] == ms[..j];
    Associative(names, NamesOfMatches(ms[..j]), TeamNames(ms[j].text));
    Associative(types, TypesOfMatches(ms[..j]), MatchTypeOf(ms[j].text));
  }

  lemma ItemsSnoc(items: seq<JackpotItem>, i: nat)
    requires i < |items|
    ensures NamesOf(items[..i + 1]) == NamesOf(items[..i]) + NamesOfMatches(items[i].matches)
    ensures TypesOf(items[..i + 1]) == TypesOf(items[..i]) + TypesOfMatches(items[i].matches)
    ensures DatesOf(items[..i + 1])
         == DatesOf(items[..i]) + (if items[i].kind == "date_match" then items[i].dates else [])
  {
    assert items[..i + 1][..i] == items[..i];
  }

  lemma OddsSnoc(items: seq<OddsItem>, i: nat)
    requires i < |items|
    ensures RangesOf(items[..i + 1]) == RangesOf(items[..i]) + RangesOfValues(items[i].values)
  {
    assert items[..i + 1][..i] == items[..i];
  }

  lemma ValuesSnoc(vs: seq<Option<real>>, k: nat)
    requires k < |vs|
    ensures RangesOfValues(vs[..k + 1])
         == RangesOfValues(vs[..k]) + (if vs[k].Some? then [CategorizeOdds(vs[k].value)] else [])
  {
    assert vs[..k + 1][..k] == vs[..k];
  }

  /** Counting the elements of `more`, one by one, into the counter of
      `before`. */
  method CountAll<K(==,!new)>(tally: Tally<K>, more: seq<K>, ghost before: seq<K>) returns (tally': Tally<K>)
    requires tally == TallyOf(before)
    ensures tally' == TallyOf(before + more)
  {
    tally' := tally;
    assert before + more[..0] == before;
    for k := 0 to |more|
      invariant tally' == TallyOf(before + more[..k])
    {
      PrefixSnoc(more, k);
      TallySnoc(before + more[..k], more[k]);
      Associative(before, more[..k], [more[k]]);
      tally' := Increment(tally', more[k]);
    }
    assert more[..|more|] == more;
  }

  /** The counters of one match: each team name found, and the kind of
      separator. */
  method CountMatch(teamFrequency: Tally<string>, matchTypes: Tally<MatchType>, m: MatchItem,
                    ghost names: seq<string>, ghost types: seq<MatchType>)
    returns (teamFrequency': Tally<string>, matchTypes': Tally<MatchType>)
    requires teamFrequency == TallyOf(names) && matchTypes == TallyOf(types)
    ensures teamFrequency' == TallyOf(names + TeamNames(m.text))
    ensures matchTypes' == TallyOf(types + MatchTypeOf(m.text))
  {
    var teams := ExtractTeamNames(m.text);
    teamFrequency' := CountAll(teamFrequency, teams, names);
    if Contains(m.text, " vs ") {
      matchTypes' := CountAll(matchTypes, [VsMatch], types);
    } else if Contains(m.text, " v ") {
      matchTypes' := CountAll(matchTypes, [VMatch], types);
    } else {
      matchTypes' := matchTypes;
      assert types + [] == types;
    }
  }

  /** The counters of one item's matches. */
  method CountMatches(teamFrequency: Tally<string>, matchTypes: Tally<MatchType>, ms: seq<MatchItem>,
                      ghost names: seq<string>, ghost types: seq<MatchType>)
    returns (teamFrequency': Tally<string>, matchTypes': Tally<MatchType>)
    requires teamFrequency == TallyOf(names) && matchTypes == TallyOf(types)
    ensures teamFrequency' == TallyOf(names + NamesOfMatches(ms))
    ensures matchTypes' == TallyOf(types + TypesOfMatches(ms))
  {
    teamFrequency', matchTypes' := teamFrequency, matchTypes;
    assert names + NamesOfMatches(ms[..0]) == names by { assert ms[..0] == []; }
    assert types + TypesOfMatches(ms[..0]) == types by { assert ms[..0] == []; }
    for j := 0 to |ms|
      invariant teamFrequency' == TallyOf(names + NamesOfMatches(ms[..j]))
      invariant matchTypes' == TallyOf(types + TypesOfMatches(ms[..j]))
    {
      MatchesSnoc(names, types, ms, j);
      teamFrequency', matchTypes' :=
        CountMatch(teamFrequency', matchTypes', ms[j], names + NamesOfMatches(ms[..j]), types + TypesOfMatches(ms[..j]));
    }
    assert ms[..|ms|] == ms;
  }

  /** The counters `analyzeJackpotPatterns` builds from the captured
      jackpot data: team names, match types and target dates. */
  method CountJackpotData(items: seq<JackpotItem>)
    returns (teamFrequency: Tally<string>, matchTypes: Tally<MatchType>, datePatterns: Tally<string>)
    ensures teamFrequency == TallyOf(NamesOf(items))
    ensures matchTypes == TallyOf(TypesOf(items))
    ensures datePatterns == TallyOf(DatesOf(items))
  {
    teamFrequency, matchTypes, datePatterns := [], [], [];
    for i := 0 to |items|
      invariant teamFrequency == TallyOf(NamesOf(items[..i]))
      invariant matchTypes == TallyOf(TypesOf(items[..i]))
      invariant datePatterns == TallyOf(DatesOf(items[..i]))
    {
      ItemsSnoc(items, i);
      var item := items[i];
      teamFrequency, matchTypes :=
        CountMatches(teamFrequency, matchTypes, item.matches, NamesOf(items[..i]), TypesOf(items[..i]));
      if item.kind == "date_match" {
        datePatterns := CountAll(datePatterns, item.dates, DatesOf(items[..i]));
      } else {
        assert DatesOf(items[..i]) + [] == DatesOf(items[..i]);
      }
    }
    assert items[..|items|] == items;
  }

  /** The buckets of one item's odds, counted into the counter of
      `before`; an odd that did not parse is skipped. */
  method CountValues(tally: Tally<OddsRange>, values: seq<Option<real>>, ghost before: seq<OddsRange>)
    returns (tally': Tally<OddsRange>)
    requires tally == TallyOf(before)
    ensures tally' == TallyOf(before + RangesOfValues(values))
  {
    tally' := tally;
    assert before + RangesOfValues(values[..0]) == before by {
      assert values[..0] == [];
    }
    for k := 0 to |values|
      invariant tally' == TallyOf(before + RangesOfValues(values[..k]))
    {
      ghost var counted := RangesOfValues(values[..k]);
      ValuesSnoc(values, k);
      var value := values[k];
      if value.Some? {
        var range := CategorizeOdds(value.value);
        TallySnoc(before + counted, range);
        Associative(before, counted, [range]);
        tally' := Increment(tally', range);
      } else {
        assert counted + [] == counted;
      }
    }
    assert values[..|values|] == values;
  }

  /** The odds-range counter of `analyzeJackpotPatterns`. */
  method CountOddsRanges(items: seq<OddsItem>) returns (oddRanges: Tally<OddsRange>)
    ensures oddRanges == TallyOf(RangesOf(items))
  {
    oddRanges := [];
    for i := 0 to |items|
      invariant oddRanges == TallyOf(RangesOf(items[..i]))
    {
      OddsSnoc(items, i);
      oddRanges := CountValues(oddRanges, items[i].values, RangesOf(items[..i]));
    }
    assert items[..|items|] == items;
  }

  /** Each counter counts every occurrence once: the team counter sums
      to the number of names extracted, a team's count is its number of
      occurrences, and the odds counter sums to the number of odds that
      parsed. */
  lemma JackpotCountsAreOccurrences(items: seq<JackpotItem>, odds: seq<OddsItem>, team: string)
    ensures Total(TallyOf(NamesOf(items))) == |NamesOf(items)|
    ensures Count(TallyOf(NamesOf(items)), team) == multiset(NamesOf(items))[team]
    ensures Total(TallyOf(RangesOf(odds))) == |RangesOf(odds)|
  {
    TallyOfCounts(NamesOf(items), team);
  }

  // ---------------------------------------------------------------------
  // analyzeExternalOddsPatterns

  /** The `odds` object of an external odds entry. */
  datatype Quote = Quote(home: Option<Odds>, away: Option<Odds>)

  /** `parseFloat(o.home) || 0`: a missing or unparsable odd counts as 0. */
  function OddsValue(o: Option<Odds>): real {
    if o.Some? then o.value else 0.0
  }

  /** The sources of the entries, in order. */
  function SourcesOf(es: seq<OddsEntry>): (r: seq<string>)
    ensures |r| == |es|
  {
    if es == [] then [] else SourcesOf(es[..|es| - 1]) + [es[|es| - 1].source]
  }

  /** The quotes of the entries for match `m`, in order. */
  function OfMatch(es: seq<OddsEntry>, m: string): seq<Quote> {
    if es == [] then []
    else
      var e := es[|es| - 1];
      OfMatch(es[..|es| - 1], m) + (if e.matchKey == m then [Quote(e.home, e.away)] else [])
  }

  /** `matchOdds`: an array per match, in first-seen order, each entry's
      quote pushed onto its match's array. */
  function Grouped(es: seq<OddsEntry>): Entries<string, seq<Quote>> {
    if es == [] then []
    else
      var g, e := Grouped(es[..|es| - 1]), es[|es| - 1];
      Put(g, e.matchKey, Get(g, e.matchKey, []) + [Quote(e.home, e.away)])
  }

  predicate NonEmptyGroups(g: Entries<string, seq<Quote>>) {
    forall i :: 0 <= i < |g| ==> |g[i].1| > 0
  }

  function MatchKeysOf(es: seq<OddsEntry>): set<string> {
    set e | e in es :: e.matchKey
  }

  lemma OddsSnocs(es: seq<OddsEntry>, i: nat)
    requires i < |es|
    ensures SourcesOf(es[..i + 1]) == SourcesOf(es[..i]) + [es[i].source]
    ensures Grouped(es[..i + 1])
         == Put(Grouped(es[..i]), es[i].matchKey, Get(Grouped(es[..i]), es[i].matchKey, []) + [Quote(es[i].home, es[i].away)])
  {
    assert es[..i + 1][..i] == es[..i];
  }

  /** Each match of the entries has one non-empty array, holding exactly
      the quotes of that match's entries in order. */
  lemma GroupedShape(es: seq<OddsEntry>)
    ensures DistinctKeys(Grouped(es))
    ensures KeySet(Grouped(es)) == MatchKeysOf(es)
    ensures forall m :: Get(Grouped(es), m, []) == OfMatch(es, m)
    ensures NonEmptyGroups(Grouped(es))
  {
    GroupedKeys(es);
    GroupedNonEmpty(es);
    forall m
      ensures Get(Grouped(es), m, []) == OfMatch(es, m)
    {
      GroupedCollects(es, m);
    }
  }

  lemma {:induction false} GroupedKeys(es: seq<OddsEntry>)
    ensures DistinctKeys(Grouped(es))
    ensures KeySet(Grouped(es)) == MatchKeysOf(es)
    decreases |es|
  {
    if es != [] {
      var init, e := es[..|es| - 1], es[|es| - 1];
      GroupedKeys(init);
      assert es == init + [e];
      assert MatchKeysOf(es) == MatchKeysOf(init) + {e.matchKey};
    }
  }

  lemma {:induction false} GroupedCollects(es: seq<OddsEntry>, m: string)
    ensures Get(Grouped(es), m, []) == OfMatch(es, m)
    decreases |es|
  {
    if es != [] {
      var init, e := es[..|es| - 1], es[|es| - 1];
      GroupedCollects(init, m);
      if m != e.matchKey {
        assert OfMatch(es, m) == OfMatch(init, m) + [];
      }
    }
  }

  lemma {:induction false} GroupedNonEmpty(es: seq<OddsEntry>)
    ensures NonEmptyGroups(Grouped(es))
    decreases |es|
  {
    if es != [] {
      var init, e := es[..|es| - 1], es[|es| - 1];
      GroupedNonEmpty(init);
      var g := Grouped(init);
      PutEntries(g, e.matchKey, Get(g, e.matchKey, []) + [Quote(e.home, e.away)]);
    }
  }

  /** Which side the average odds favour; a tie favours the away team. */
  datatype Favoured = HomeFavoured | AwayFavoured

  /** One match's entry of `averageOdds`, before `toFixed`. */
  datatype MatchAverage = MatchAverage(homeAvg: real, awayAvg: real, sources: nat, recommendation: Favoured)

  function SumHome(qs: seq<Quote>): real {
    if qs == [] then 0.0 else SumHome(qs[..|qs| - 1]) + OddsValue(qs[|qs| - 1].home)
  }

  function SumAway(qs: seq<Quote>): real {
    if qs == [] then 0.0 else SumAway(qs[..|qs| - 1]) + OddsValue(qs[|qs| - 1].away)
  }

  /** The averages of one match's quotes: the lower average odds mark the
      favourite, because lower odds mean a likelier win. */
  function Average(qs: seq<Quote>): (a: MatchAverage)
    requires |qs| > 0
    ensures a.sources == |qs|
    ensures a.recommendation == HomeFavoured <==> SumHome(qs) < SumAway(qs)
  {
    var n := |qs| as real;
    var homeAvg := SumHome(qs) / n;
    var awayAvg := SumAway(qs) / n;
    DivideStrict(SumAway(qs), SumHome(qs), n);
    MatchAverage(homeAvg, awayAvg, |qs|, if homeAvg < awayAvg then HomeFavoured else AwayFavoured)
  }

  /** `averageOdds`, assigned match by match in the order of `matchOdds`. */
  function Averages(g: Entries<string, seq<Quote>>): Entries<string, MatchAverage>
    requires NonEmptyGroups(g)
  {
    if g == [] then []
    else Put(Averages(g[..|g| - 1]), g[|g| - 1].0, Average(g[|g| - 1].1))
  }

  /** The keys of `matchOdds` are distinct, so every assignment appends:
      `averageOdds` has one entry per match, in the same order. */
  lemma {:induction false} AveragesShape(g: Entries<string, seq<Quote>>)
    requires NonEmptyGroups(g) && DistinctKeys(g)
    ensures |Averages(g)| == |g|
    ensures forall i :: 0 <= i < |g| ==> Averages(g)[i] == (g[i].0, Average(g[i].1))
    decreases |g|
  {
    if g != [] {
      var init := g[..|g| - 1];
      AveragesShape(init);
      assert KeySet(Averages(init)) == KeySet(init);
      assert g[|g| - 1].0 !in KeySet(init);
      PutNew(Averages(init), g[|g| - 1].0, Average(g[|g| - 1].1));
    }
  }

  lemma AveragesSnoc(g: Entries<string, seq<Quote>>, i: nat)
    requires NonEmptyGroups(g) && i < |g|
    ensures NonEmptyGroups(g[..i]) && NonEmptyGroups(g[..i + 1])
    ensures Averages(g[..i + 1]) == Put(Averages(g[..i]), g[i].0, Average(g[i].1))
  {
    assert g[..i + 1][..i] == g[..i];
  }

  /** `{sourceDistribution, averageOdds}`; `oddsMovement` and `consensus`
      stay empty. */
  datatype OddsAnalysis = OddsAnalysis(sourceDistribution: Tally<string>, averageOdds: Entries<string, MatchAverage>)

  function ExternalOddsAnalysis(es: seq<OddsEntry>): OddsAnalysis {
    GroupedShape(es);
    OddsAnalysis(TallyOf(SourcesOf(es)), Averages(Grouped(es)))
  }

  /** The source counter of `analyzeExternalOddsPatterns`. */
  method CountSources(externalOdds: seq<OddsEntry>) returns (sourceDistribution: Tally<string>)
    ensures sourceDistribution == TallyOf(SourcesOf(externalOdds))
  {
    sourceDistribution := [];
    for i := 0 to |externalOdds|
      invariant sourceDistribution == TallyOf(SourcesOf(externalOdds[..i]))
    {
      OddsSnocs(externalOdds, i);
      TallySnoc(SourcesOf(externalOdds[..i]), externalOdds[i].source);
      sourceDistribution := Increment(sourceDistribution, externalOdds[i].source);
    }
    assert externalOdds[..|externalOdds|] == externalOdds;
  }

  /** The grouping loop of `analyzeExternalOddsPatterns`. */
  method GroupByMatch(externalOdds: seq<OddsEntry>) returns (matchOdds: Entries<string, seq<Quote>>)
    ensures matchOdds == Grouped(externalOdds)
  {
    matchOdds := [];
    for i := 0 to |externalOdds|
      invariant matchOdds == Grouped(externalOdds[..i])
    {
      OddsSnocs(externalOdds, i);
      var odds := externalOdds[i];
      matchOdds := Put(matchOdds, odds.matchKey, Get(matchOdds, odds.matchKey, []) + [Quote(odds.home, odds.away)]);
    }
    assert externalOdds[..|externalOdds|] == externalOdds;
  }

  /** The averaging loop of `analyzeExternalOddsPatterns`. */
  method AverageGroups(matchOdds: Entries<string, seq<Quote>>) returns (averageOdds: Entries<string, MatchAverage>)
    requires NonEmptyGroups(matchOdds)
    ensures averageOdds == Averages(matchOdds)
  {
    averageOdds := [];
    assert matchOdds[..0] == [];
    for i := 0 to |matchOdds|
      invariant averageOdds == Averages(matchOdds[..i])
    {
      AveragesSnoc(matchOdds, i);
      var (matchKey, oddsArray) := matchOdds[i];
      averageOdds := Put(averageOdds, matchKey, Average(oddsArray));
    }
    assert matchOdds[..|matchOdds|] == matchOdds;
  }

  /** `analyzeExternalOddsPatterns`. */
  method AnalyzeExternalOddsPatterns(externalOdds: seq<OddsEntry>) returns (analysis: OddsAnalysis)
    ensures analysis == ExternalOddsAnalysis(externalOdds)
  {
    var sourceDistribution := CountSources(externalOdds);
    var matchOdds := GroupByMatch(externalOdds);
    GroupedNonEmpty(externalOdds);
    var averageOdds := AverageGroups(matchOdds);
    analysis := OddsAnalysis(sourceDistribution, averageOdds);
  }

  /** The source counts sum to the number of entries; `averageOdds` has
      one entry per match, whose `sources` is its number of entries and
      which favours the home team exactly when its home odds add up to
      less than its away odds. */
  lemma ExternalOddsAnalysisMeans(es: seq<OddsEntry>)
    ensures Total(ExternalOddsAnalysis(es).sourceDistribution) == |es|
    ensures KeySet(ExternalOddsAnalysis(es).averageOdds) == MatchKeysOf(es)
    ensures DistinctKeys(ExternalOddsAnalysis(es).averageOdds)
    ensures forall i :: 0 <= i < |ExternalOddsAnalysis(es).averageOdds| ==>
      AveragesMatch(es, ExternalOddsAnalysis(es).averageOdds[i])
  {
    GroupedKeys(es);
    GroupedNonEmpty(es);
    var g := Grouped(es);
    AveragesShape(g);
    var a := Averages(g);
    assert KeySet(a) == KeySet(g);
    forall i | 0 <= i < |a|
      ensures AveragesMatch(es, a[i])
    {
      GetAt(g, i, []);
      GroupedCollects(es, g[i].0);
    }
  }

  /** An entry of `averageOdds` agrees with the entries of its match. */
  predicate AveragesMatch(es: seq<OddsEntry>, entry: (string, MatchAverage)) {
    var qs := OfMatch(es, entry.0);
    && entry.1.sources == |qs| > 0
    && (entry.1.recommendation == HomeFavoured <==> SumHome(qs) < SumAway(qs))
  }

  // ---------------------------------------------------------------------
  // analyzeMLPredictionPatterns

  /** The confidence buckets: above 0.7 high, above 0.5 medium, else low. */
  function ConfidenceLevel(c: real): Level {
    if c > 0.7 then High else if c > 0.5 then Medium else Low
  }

  function PredictionsOf(ps: seq<MlPrediction>): (r: seq<string>)
    ensures |r| == |ps|
  {
    if ps == [] then [] else PredictionsOf(ps[..|ps| - 1]) + [ps[|ps| - 1].prediction]
  }

  function LevelsOf(ps: seq<MlPrediction>): (r: seq<Level>)
    ensures |r| == |ps|
  {
    if ps == [] then [] else LevelsOf(ps[..|ps| - 1]) + [ConfidenceLevel(ps[|ps| - 1].confidence)]
  }

  function ModelsOf(ps: seq<MlPrediction>): (r: seq<string>)
    ensures |r| == |ps|
  {
    if ps == [] then [] else ModelsOf(ps[..|ps| - 1]) + [ps[|ps| - 1].model]
  }

  lemma MlSnocs(ps: seq<MlPrediction>, i: nat)
    requires i < |ps|
    ensures PredictionsOf(ps[..i + 1]) == PredictionsOf(ps[..i]) + [ps[i].prediction]
    ensures LevelsOf(ps[..i + 1]) == LevelsOf(ps[..i]) + [ConfidenceLevel(ps[i].confidence)]
    ensures ModelsOf(ps[..i + 1]) == ModelsOf(ps[..i]) + [ps[i].model]
  {
    assert ps[..i + 1][..i] == ps[..i];
  }

  /** The percentage of `n` predictions a count stands for, before
      `toFixed`. */
  function Percentage(count: nat, n: nat): (r: real)
    requires n > 0
    ensures r >= 0.0
  {
    DivideMonotone(0.0, count as real, n as real);
    (count as real) / (n as real) * 100.0
  }

  /** `consensus`: each prediction's share of all predictions, in the
      order of the counter. */
  function Consensus(t: Tally<string>, n: nat): (r: Entries<string, real>)
    requires n > 0 || t == []
    ensures |r| == |t| && forall i :: 0 <= i < |t| ==> r[i].0 == t[i].0 && r[i].1 >= 0.0
  {
    if t == [] then []
    else Consensus(t[..|t| - 1], n) + [(t[|t| - 1].0, Percentage(t[|t| - 1].1, n))]
  }

  /** The sum of the values. */
  function SumValues(e: Entries<string, real>): real {
    if e == [] then 0.0 else SumValues(e[..|e| - 1]) + e[|e| - 1].1
  }

  datatype MlAnalysis = MlAnalysis(
    predictionDistribution: Tally<string>, confidenceLevels: Tally<Level>,
    modelTypes: Tally<string>, consensus: Entries<string, real>)

  function MlAnalysisOf(ps: seq<MlPrediction>): MlAnalysis {
    var distribution := TallyOf(PredictionsOf(ps));
    MlAnalysis(distribution, TallyOf(LevelsOf(ps)), TallyOf(ModelsOf(ps)), Consensus(distribution, |ps|))
  }

  /** The three counters of `analyzeMLPredictionPatterns`. */
  method CountPredictions(mlPredictions: seq<MlPrediction>)
    returns (predictionDistribution: Tally<string>, confidenceLevels: Tally<Level>, modelTypes: Tally<string>)
    ensures predictionDistribution == TallyOf(PredictionsOf(mlPredictions))
    ensures confidenceLevels == TallyOf(LevelsOf(mlPredictions))
    ensures modelTypes == TallyOf(ModelsOf(mlPredictions))
  {
    predictionDistribution, confidenceLevels, modelTypes := [], [], [];
    for i := 0 to |mlPredictions|
      invariant predictionDistribution == TallyOf(PredictionsOf(mlPredictions[..i]))
      invariant confidenceLevels == TallyOf(LevelsOf(mlPredictions[..i]))
      invariant modelTypes == TallyOf(ModelsOf(mlPredictions[..i]))
    {
      var pred := mlPredictions[i];
      MlSnocs(mlPredictions, i);
      TallySnoc(PredictionsOf(mlPredictions[..i]), pred.prediction);
      TallySnoc(LevelsOf(mlPredictions[..i]), ConfidenceLevel(pred.confidence));
      TallySnoc(ModelsOf(mlPredictions[..i]), pred.model);
      predictionDistribution := Increment(predictionDistribution, pred.prediction);
      confidenceLevels := Increment(confidenceLevels, ConfidenceLevel(pred.confidence));
      modelTypes := Increment(modelTypes, pred.model);
    }
    assert mlPredictions[..|mlPredictions|] == mlPredictions;
  }

  /** The consensus loop: a counter's keys are distinct, so each
      assignment appends. */
  method ConsensusOf(distribution: Tally<string>, totalPredictions: nat) returns (consensus: Entries<string, real>)
    requires DistinctKeys(distribution) && (totalPredictions > 0 || distribution == [])
    ensures consensus == Consensus(distribution, totalPredictions)
  {
    consensus := [];
    assert distribution[..0] == [];
    for i := 0 to |distribution|
      invariant consensus == Consensus(distribution[..i], totalPredictions)
    {
      var (prediction, count) := distribution[i];
      assert distribution[..i + 1][..i] == distribution[..i];
      assert prediction !in KeySet(consensus) by {
        assert forall j :: 0 <= j < i ==> consensus[j].0 == distribution[j].0 != prediction;
      }
      PutNew(consensus, prediction, Percentage(count, totalPredictions));
      consensus := Put(consensus, prediction, Percentage(count, totalPredictions));
    }
    assert distribution[..|distribution|] == distribution;
  }

  /** `analyzeMLPredictionPatterns`. */
  method AnalyzeMlPredictionPatterns(mlPredictions: seq<MlPrediction>) returns (analysis: MlAnalysis)
    ensures analysis == MlAnalysisOf(mlPredictions)
  {
    var predictionDistribution, confidenceLevels, modelTypes := CountPredictions(mlPredictions);
    var consensus := ConsensusOf(predictionDistribution, |mlPredictions|);
    analysis := MlAnalysis(predictionDistribution, confidenceLevels, modelTypes, consensus);
  }

  /** The percentages add up to `Total(t) / n * 100`. */
  lemma {:induction false} ConsensusSum(t: Tally<string>, n: nat)
    requires n > 0
    ensures SumValues(Consensus(t, n)) == (Total(t) as real) / (n as real) * 100.0
    decreases |t|
  {
    if t != [] {
      var init := t[..|t| - 1];
      ConsensusSum(init, n);
      assert Consensus(t, n)[..|t| - 1] == Consensus(init, n);
      DivideSum(Total(init) as real, t[|t| - 1].1 as real, Total(t) as real, n as real);
    }
  }

  /** The sum of non-negative values is at least any two of them. */
  lemma {:induction false} SumAtLeastPair(e: Entries<string, real>, i: nat, j: nat)
    requires i < j < |e| && forall k :: 0 <= k < |e| ==> e[k].1 >= 0.0
    ensures SumValues(e) >= e[i].1 + e[j].1
    decreases |e|
  {
    var init := e[..|e| - 1];
    if j < |e| - 1 {
      SumAtLeastPair(init, i, j);
    } else {
      SumAtLeastOne(init, i);
    }
  }

  lemma {:induction false} SumAtLeastOne(e: Entries<string, real>, i: nat)
    requires i < |e| && forall k :: 0 <= k < |e| ==> e[k].1 >= 0.0
    ensures SumValues(e) >= e[i].1
    decreases |e|
  {
    var init := e[..|e| - 1];
    if i < |e| - 1 {
      SumAtLeastOne(init, i);
    } else {
      SumNonNegative(init);
    }
  }

  lemma {:induction false} SumNonNegative(e: Entries<string, real>)
    requires forall k :: 0 <= k < |e| ==> e[k].1 >= 0.0
    ensures SumValues(e) >= 0.0
    decreases |e|
  {
    if e != [] {
      SumNonNegative(e[..|e| - 1]);
    }
  }

  /** The prediction counts sum to the number of predictions, and the
      percentages to 100 when there is any prediction. */
  lemma MlAnalysisMeans(ps: seq<MlPrediction>)
    ensures Total(MlAnalysisOf(ps).predictionDistribution) == |ps|
    ensures Total(MlAnalysisOf(ps).confidenceLevels) == |ps|
    ensures |ps| > 0 ==> SumValues(MlAnalysisOf(ps).consensus) == 100.0
  {
    var t := TallyOf(PredictionsOf(ps));
    if |ps| > 0 {
      ConsensusSum(t, |ps|);
      WholePercentage(|ps| as real);
    }
  }

  lemma WholePercentage(n: real)
    requires n > 0.0
    ensures n / n * 100.0 == 100.0
  {
  }

  /** So at most one prediction can pass the `> 60` consensus filter. */
  lemma MlConsensusUnique(ps: seq<MlPrediction>, i: nat, j: nat)
    requires i < j < |MlAnalysisOf(ps).consensus|
    ensures !(MlAnalysisOf(ps).consensus[i].1 > 60.0 && MlAnalysisOf(ps).consensus[j].1 > 60.0)
  {
    MlAnalysisMeans(ps);
    SumAtLeastPair(MlAnalysisOf(ps).consensus, i, j);
  }

  // ---------------------------------------------------------------------
  // analyzeTrafficIntelligence

  /** A `jackpot_reference` insight is of high significance, a
      `target_date_reference` of critical significance. */
  datatype InsightKind = JackpotReference | TargetDateReference

  /** An insight, without the record's timestamp it copies. */
  datatype TrafficInsight = TrafficInsight(kind: InsightKind, source: string)

  /** The insights a record yields: the lower-cased JSON of its payload is
      searched for "jackpot" and for the target date in either format. */
  function InsightsOfRecord(t: TrafficRecord): seq<TrafficInsight> {
    if t.data.None? then []
    else
      var text := ToLower(t.data.value);
      (if Contains(text, "jackpot") then [TrafficInsight(JackpotReference, t.source)] else [])
      + (if Contains(text, "04/10/2025") || Contains(text, "2025-10-04")
         then [TrafficInsight(TargetDateReference, t.source)] else [])
  }

  function InsightsOf(rs: seq<TrafficRecord>): seq<TrafficInsight> {
    if rs == [] then [] else InsightsOf(rs[..|rs| - 1]) + InsightsOfRecord(rs[|rs| - 1])
  }

  function TrafficSourcesOf(rs: seq<TrafficRecord>): seq<string> {
    if rs == [] then [] else TrafficSourcesOf(rs[..|rs| - 1]) + [rs[|rs| - 1].source]
  }

  function TrafficKindsOf(rs: seq<TrafficRecord>): seq<string> {
    if rs == [] then [] else TrafficKindsOf(rs[..|rs| - 1]) + [rs[|rs| - 1].kind]
  }

  lemma TrafficSnocs(rs: seq<TrafficRecord>, i: nat)
    requires i < |rs|
    ensures TrafficSourcesOf(rs[..i + 1]) == TrafficSourcesOf(rs[..i]) + [rs[i].source]
    ensures TrafficKindsOf(rs[..i + 1]) == TrafficKindsOf(rs[..i]) + [rs[i].kind]
    ensures InsightsOf(rs[..i + 1]) == InsightsOf(rs[..i]) + InsightsOfRecord(rs[i])
  {
    assert rs[..i + 1][..i] == rs[..i];
  }

  /** The number of insights of one kind. */
  function CountKind(insights: seq<TrafficInsight>, kind: InsightKind): (n: nat)
    ensures n <= |insights|
  {
    if insights == [] then 0
    else CountKind(insights[..|insights| - 1], kind) + (if insights[|insights| - 1].kind == kind then 1 else 0)
  }

  /** Every insight is of one of the two kinds. */
  lemma {:induction false} CountKindsSum(insights: seq<TrafficInsight>)
    ensures CountKind(insights, TargetDateReference) + CountKind(insights, JackpotReference) == |insights|
    decreases |insights|
  {
    if insights != [] {
      CountKindsSum(insights[..|insights| - 1]);
    }
  }

  /** The overall significance: the mean of 0.8 per critical and 0.5 per
      high insight, 0 when there is none. */
  function OverallSignificance(insights: seq<TrafficInsight>): real {
    if |insights| > 0 then
      ((CountKind(insights, TargetDateReference) as real) * 0.8 + (CountKind(insights, JackpotReference) as real) * 0.5)
      / (|insights| as real)
    else 0.0
  }

  /** Between 0.5 and 0.8 whenever there is an insight, above 0.5 exactly
      when a target-date reference was found, and 0.8 exactly when every
      insight is one. */
  lemma SignificanceBounds(insights: seq<TrafficInsight>)
    ensures insights == [] ==> OverallSignificance(insights) == 0.0
    ensures insights != [] ==> 0.5 <= OverallSignificance(insights) <= 0.8
    ensures insights != [] ==>
      (OverallSignificance(insights) > 0.5 <==> CountKind(insights, TargetDateReference) > 0)
    ensures insights != [] ==>
      (OverallSignificance(insights) == 0.8 <==> CountKind(insights, JackpotReference) == 0)
  {
    if insights != [] {
      CountKindsSum(insights);
      WeightedMean(CountKind(insights, TargetDateReference) as real, CountKind(insights, JackpotReference) as real);
    }
  }

  /** The mean of `c` weights 0.8 and `h` weights 0.5. */
  lemma WeightedMean(c: real, h: real)
    requires c >= 0.0 && h >= 0.0 && c + h > 0.0
    ensures 0.5 <= (c * 0.8 + h * 0.5) / (c + h) <= 0.8
    ensures (c * 0.8 + h * 0.5) / (c + h) > 0.5 <==> c > 0.0
    ensures (c * 0.8 + h * 0.5) / (c + h) == 0.8 <==> h == 0.0
  {
    var n := c + h;
    assert c * 0.8 + h * 0.5 == n * 0.5 + c * 0.3;
    DivideSum(n * 0.5, c * 0.3, c * 0.8 + h * 0.5, n);
    DivideScaled(0.5, n);
    DivideScaled(0.3, n);
    DivideMonotone(0.0, c * 0.3, n);
    DivideMonotone(c * 0.3, n * 0.3, n);
    if c > 0.0 {
      DividePositive(c * 0.3, n);
    }
    if h > 0.0 {
      DivideStrict(n * 0.3, c * 0.3, n);
    }
  }

  lemma DivideScaled(k: real, n: real)
    requires n > 0.0
    ensures (n * k) / n == k
  {
  }

  datatype TrafficAnalysis = TrafficAnalysis(
    sourceBreakdown: Tally<string>, dataTypes: Tally<string>,
    insights: seq<TrafficInsight>, significance: real)

  function TrafficAnalysisOf(rs: seq<TrafficRecord>): TrafficAnalysis {
    var insights := InsightsOf(rs);
    TrafficAnalysis(TallyOf(TrafficSourcesOf(rs)), TallyOf(TrafficKindsOf(rs)), insights, OverallSignificance(insights))
  }

  /** `analyzeTrafficIntelligence`. */
  method AnalyzeTrafficIntelligence(trafficData: seq<TrafficRecord>) returns (analysis: TrafficAnalysis)
    ensures analysis == TrafficAnalysisOf(trafficData)
  {
    var sourceBreakdown, dataTypes, insights := [], [], [];
    for i := 0 to |trafficData|
      invariant sourceBreakdown == TallyOf(TrafficSourcesOf(trafficData[..i]))
      invariant dataTypes == TallyOf(TrafficKindsOf(trafficData[..i]))
      invariant insights == InsightsOf(trafficData[..i])
    {
      var traffic := trafficData[i];
      TrafficSnocs(trafficData, i);
      TallySnoc(TrafficSourcesOf(trafficData[..i]), traffic.source);
      TallySnoc(TrafficKindsOf(trafficData[..i]), traffic.kind);
      sourceBreakdown := Increment(sourceBreakdown, traffic.source);
      dataTypes := Increment(dataTypes, traffic.kind);
      insights := insights + InsightsOfRecord(traffic);
    }
    assert trafficData[..|trafficData|] == trafficData;
    analysis := TrafficAnalysis(sourceBreakdown, dataTypes, insights, OverallSignificance(insights));
  }

  // ---------------------------------------------------------------------
  // assessDataQuality

  /** The captured data of the final report; only the number of match
      records is read. */
  datatype Captured = Captured(jackpotData: seq<JackpotItem>, matchData: nat, oddsData: seq<OddsItem>)

  /** An item tells about the target date when it is a `date_match` or
      its JSON quotes the date in either format. */
  predicate MentionsTargetDate(item: JackpotItem) {
    item.kind == "date_match" || Contains(item.json, "04/10/2025") || Contains(item.json, "2025-10-04")
  }

  function AnyMentionsTargetDate(items: seq<JackpotItem>): (b: bool)
    ensures b <==> exists i :: 0 <= i < |items| && MentionsTargetDate(items[i])
  {
    if items == [] then false
    else MentionsTargetDate(items[0]) || AnyMentionsTargetDate(items[1..])
  }

  datatype QualityReport = QualityReport(
    jackpotDataAvailable: nat, matchDataAvailable: nat, oddsDataAvailable: nat,
    dateSpecificData: nat, overallScore: real)

  /** `Math.min(count / max, 1)`. */
  function Capped(count: nat, max: nat): (r: real)
    requires max > 0
    ensures 0.0 <= r <= 1.0
    ensures r == 1.0 <==> count >= max
  {
    var ratio := (count as real) / (max as real);
    DivideMonotone(0.0, count as real, max as real);
    DivideStrict(count as real, max as real, max as real);
    DivideScaled(1.0, max as real);
    if ratio < 1.0 then ratio else 1.0
  }

  /** The weighted score: 0.4 jackpot items out of 10, 0.3 match records
      out of 20, 0.2 odds items out of 15, 0.1 for the target date. */
  function QualityScore(jackpot: nat, matches: nat, odds: nat, date: nat): real {
    Capped(jackpot, 10) * 0.4 + Capped(matches, 20) * 0.3 + Capped(odds, 15) * 0.2 + (date as real) * 0.1
  }

  /** `assessDataQuality`; without captured data every count is 0. */
  function AssessDataQuality(captured: Option<Captured>): (q: QualityReport)
    ensures 0.0 <= q.overallScore <= 1.0
    ensures q.dateSpecificData == 1 <==>
      captured.Some? && (exists i :: 0 <= i < |captured.value.jackpotData| && MentionsTargetDate(captured.value.jackpotData[i]))
    ensures q.dateSpecificData <= 1
  {
    var (jackpot, matches, odds, date) :=
      match captured
      case None => (0, 0, 0, 0)
      case Some(c) => (|c.jackpotData|, c.matchData, |c.oddsData|, if AnyMentionsTargetDate(c.jackpotData) then 1 else 0);
    QualityReport(jackpot, matches, odds, date, QualityScore(jackpot, matches, odds, date))
  }

  /** More data never lowers the score. */
  lemma QualityScoreMonotone(j: nat, m: nat, o: nat, d: nat, j': nat, m': nat, o': nat, d': nat)
    requires j <= j' && m <= m' && o <= o' && d <= d'
    ensures QualityScore(j, m, o, d) <= QualityScore(j', m', o', d')
  {
    CappedMonotone(j, j', 10);
    CappedMonotone(m, m', 20);
    CappedMonotone(o, o', 15);
  }

  lemma CappedMonotone(count: nat, count': nat, max: nat)
    requires max > 0 && count <= count'
    ensures Capped(count, max) <= Capped(count', max)
  {
    DivideMonotone(count as real, count' as real, max as real);
  }

  /** The score is full exactly when every count reaches its cap and the
      target date was seen. */
  lemma QualityScoreFull(j: nat, m: nat, o: nat, d: nat)
    requires d <= 1
    ensures QualityScore(j, m, o, d) == 1.0 <==> j >= 10 && m >= 20 && o >= 15 && d == 1
  {
  }

  // ---------------------------------------------------------------------
  // The filtering and sorting of generatePredictionInsights

  /** The ten most frequent teams. */
  function TopTeams(teamFrequency: Tally<string>): seq<(string, nat)> {
    Top(teamFrequency, 10)
  }

  /** An entry of the `win_probability` prediction. */
  datatype HighProbMatch = HighProbMatch(
    matchKey: string, favoured: string, probability: real, confidence: real,
    factors: seq<Factor>, recommendation: Action)

  /** The filter: a leading probability above 0.65 and a low risk. */
  predicate HighProbability(p: MatchProbability) {
    Max(p.team1.winProbability, p.team2.winProbability) > WinProbabilityThreshold && p.riskLevel == Low
  }

  /** The favoured team is team 1 only when strictly more probable. */
  function Favour(e: (string, MatchProbability)): HighProbMatch {
    var p := e.1;
    var first := p.team1.winProbability > p.team2.winProbability;
    HighProbMatch(
      e.0, if first then p.team1.name else p.team2.name,
      Max(p.team1.winProbability, p.team2.winProbability), p.team1.confidence,
      if first then p.team1.factors else p.team2.factors, p.recommendation.action)
  }

  function FavourAll(es: seq<(string, MatchProbability)>): (r: seq<HighProbMatch>)
    ensures |r| == |es| && forall i :: 0 <= i < |es| ==> r[i] == Favour(es[i])
  {
    if es == [] then [] else [Favour(es[0])] + FavourAll(es[1..])
  }

  function ProbabilityKey(h: HighProbMatch): real {
    h.probability
  }

  /** The `win_probability` prediction, most probable first. */
  function HighProbMatches(ps: Entries<string, MatchProbability>): seq<HighProbMatch> {
    SortDesc(FavourAll(Filter(ps, (e: (string, MatchProbability)) => HighProbability(e.1))), ProbabilityKey)
  }

  /** The prediction holds exactly the high-probability, low-risk
      entries, each once per entry, most probable first. */
  lemma HighProbMatchesAreExact(ps: Entries<string, MatchProbability>, e: (string, MatchProbability))
    ensures SortedDesc(HighProbMatches(ps), ProbabilityKey)
    ensures e in ps && HighProbability(e.1) ==> Favour(e) in HighProbMatches(ps)
    ensures forall h :: h in HighProbMatches(ps) ==> exists x :: x in ps && HighProbability(x.1) && h == Favour(x)
  {
    var kept := Filter(ps, (x: (string, MatchProbability)) => HighProbability(x.1));
    var favoured := FavourAll(kept);
    assert multiset(HighProbMatches(ps)) == multiset(favoured);
    if e in ps && HighProbability(e.1) {
      var i :| 0 <= i < |kept| && kept[i] == e;
      assert favoured[i] == Favour(e);
      assert Favour(e) in multiset(favoured);
    }
    forall h | h in HighProbMatches(ps)
      ensures exists x :: x in ps && HighProbability(x.1) && h == Favour(x)
    {
      assert h in multiset(favoured);
      var i :| 0 <= i < |favoured| && favoured[i] == h;
      assert kept[i] in kept;
    }
  }

  /** Over the computed probabilities the 0.65 filter adds nothing to
      the low-risk test, and every kept match is a bet on its favoured
      team. */
  lemma HighProbMatchesAreBets(ms: seq<Match>, intel: Intelligence, e: (string, MatchProbability))
    requires e in WinProbabilities(ms, intel)
    ensures HighProbability(e.1) <==> e.1.riskLevel == Low
    ensures HighProbability(e.1) ==>
      Favour(e).recommendation == (if e.1.team1.winProbability > e.1.team2.winProbability then BetTeam1 else BetTeam2)
  {
    WinProbabilitiesConsistent(ms, intel);
    var i :| 0 <= i < |WinProbabilities(ms, intel)| && WinProbabilities(ms, intel)[i] == e;
    assert Consistent(e.1);
  }

  /** An entry of the `odds_consensus` prediction, before `toFixed`. */
  datatype OddsConsensus = OddsConsensus(
    matchKey: string, recommendation: Favoured, homeOdds: real, awayOdds: real, sources: nat)

  function ConsensusEntry(e: (string, MatchAverage)): OddsConsensus {
    OddsConsensus(e.0, e.1.recommendation, e.1.homeAvg, e.1.awayAvg, e.1.sources)
  }

  function ConsensusEntries(es: seq<(string, MatchAverage)>): (r: seq<OddsConsensus>)
    ensures |r| == |es| && forall i :: 0 <= i < |es| ==> r[i] == ConsensusEntry(es[i])
  {
    if es == [] then [] else [ConsensusEntry(es[0])] + ConsensusEntries(es[1..])
  }

  /** The `odds_consensus` prediction: the matches quoted by at least two
      entries, in the order of `averageOdds`. */
  function OddsConsensusOf(averageOdds: Entries<string, MatchAverage>): seq<OddsConsensus> {
    ConsensusEntries(Filter(averageOdds, (e: (string, MatchAverage)) => e.1.sources >= 2))
  }

  /** Each consensus entry is a match with at least two external odds
      entries, favouring home exactly when its home odds add up to less. */
  lemma OddsConsensusMeans(es: seq<OddsEntry>, c: OddsConsensus)
    requires c in OddsConsensusOf(ExternalOddsAnalysis(es).averageOdds)
    ensures |OfMatch(es, c.matchKey)| == c.sources >= 2
    ensures c.recommendation == HomeFavoured <==> SumHome(OfMatch(es, c.matchKey)) < SumAway(OfMatch(es, c.matchKey))
  {
    var averageOdds := ExternalOddsAnalysis(es).averageOdds;
    var kept := Filter(averageOdds, (e: (string, MatchAverage)) => e.1.sources >= 2);
    var k :| 0 <= k < |kept| && ConsensusEntries(kept)[k] == c;
    assert kept[k] in kept;
    var i :| 0 <= i < |averageOdds| && averageOdds[i] == kept[k];
    ExternalOddsAnalysisMeans(es);
    assert AveragesMatch(es, averageOdds[i]);
  }

  /** An entry of the `ml_consensus` prediction. */
  datatype MlConsensus = MlConsensus(prediction: string, consensus: real, confidence: Tally<Level>)

  function MlConsensusEntries(es: seq<(string, real)>, levels: Tally<Level>): (r: seq<MlConsensus>)
    ensures |r| == |es| && forall i :: 0 <= i < |es| ==> r[i] == MlConsensus(es[i].0, es[i].1, levels)
  {
    if es == [] then [] else [MlConsensus(es[0].0, es[0].1, levels)] + MlConsensusEntries(es[1..], levels)
  }

  /** The `ml_consensus` prediction: the predictions above 60 percent. */
  function MlConsensusOf(a: MlAnalysis): seq<MlConsensus> {
    MlConsensusEntries(Filter(a.consensus, (e: (string, real)) => e.1 > 60.0), a.confidenceLevels)
  }

  /** At most one prediction is a consensus, and it is the share of a
      prediction that was made. */
  lemma MlConsensusIsUnique(ps: seq<MlPrediction>, x: MlConsensus, y: MlConsensus)
    requires x in MlConsensusOf(MlAnalysisOf(ps)) && y in MlConsensusOf(MlAnalysisOf(ps))
    ensures x == y
    ensures x.prediction in PredictionsOf(ps) && x.consensus > 60.0
  {
    TallyOfKeys(PredictionsOf(ps));
    var a := MlAnalysisOf(ps);
    var kept := Filter(a.consensus, (e: (string, real)) => e.1 > 60.0);
    var k :| 0 <= k < |kept| && MlConsensusEntries(kept, a.confidenceLevels)[k] == x;
    var l :| 0 <= l < |kept| && MlConsensusEntries(kept, a.confidenceLevels)[l] == y;
    assert kept[k] in kept && kept[l] in kept;
    var i :| 0 <= i < |a.consensus| && a.consensus[i] == kept[k];
    var j :| 0 <= j < |a.consensus| && a.consensus[j] == kept[l];
    if i < j {
      MlConsensusUnique(ps, i, j);
    } else if j < i {
      MlConsensusUnique(ps, j, i);
    }
    assert a.consensus[i].0 == a.predictionDistribution[i].0;
    assert a.predictionDistribution[i].0 in KeySet(a.predictionDistribution);
  }

  /** A prediction of the insights. */
  datatype Prediction =
    | TeamFrequencyPrediction(teams: seq<(string, nat)>)
    | WinProbabilityPrediction(matches: seq<HighProbMatch>)
    | OddsConsensusPrediction(consensusEntries: seq<OddsConsensus>)
    | MlConsensusPrediction(mlEntries: seq<MlConsensus>)
    | OddsDistributionPrediction(ranges: seq<(OddsRange, nat)>)

  datatype RiskFactor = LimitedJackpotData | NoTargetDateData

  /** The insights, without the timestamp and the fixed texts: the
      confidence tier, the predictions, the risk factors and the priority
      teams added to the recommendations. */
  datatype Insights = Insights(
    confidence: Level, predictions: seq<Prediction>, riskFactors: seq<RiskFactor>,
    priorityTeams: Option<seq<string>>)

  /** What `analyzeJackpotPatterns` returns; an analysis that was not run
      is `None`. */
  datatype Patterns = Patterns(
    teamFrequency: Tally<string>, oddRanges: Tally<OddsRange>, datePatterns: Tally<string>,
    matchTypes: Tally<MatchType>, winProbabilities: Entries<string, MatchProbability>,
    externalOddsAnalysis: Option<OddsAnalysis>, mlPredictions: Option<MlAnalysis>,
    trafficIntelligence: Option<TrafficAnalysis>)

  /** `[p]` when `p`'s list is not empty. */
  function PushIf(nonEmpty: bool, p: Prediction): seq<Prediction> {
    if nonEmpty then [p] else []
  }

  /** The predictions, each pushed only when its list is not empty. */
  function InsightPredictions(patterns: Patterns): seq<Prediction> {
    Assemble(
      TopTeams(patterns.teamFrequency),
      HighProbMatches(patterns.winProbabilities),
      if patterns.externalOddsAnalysis.Some? then OddsConsensusOf(patterns.externalOddsAnalysis.value.averageOdds) else [],
      if patterns.mlPredictions.Some? then MlConsensusOf(patterns.mlPredictions.value) else [],
      ByCount(patterns.oddRanges))
  }

  function Assemble(
    topTeams: seq<(string, nat)>, highProb: seq<HighProbMatch>, oddsConsensus: seq<OddsConsensus>,
    mlConsensus: seq<MlConsensus>, oddsDistribution: seq<(OddsRange, nat)>): (r: seq<Prediction>)
    ensures forall i :: 0 <= i < |r| ==> NonEmptyPrediction(r[i])
    ensures (r != [] && r[0].TeamFrequencyPrediction?) <==> topTeams != []
    ensures |r| <= 5
  {
    PushIf(|topTeams| > 0, TeamFrequencyPrediction(topTeams))
    + PushIf(|highProb| > 0, WinProbabilityPrediction(highProb))
    + PushIf(|oddsConsensus| > 0, OddsConsensusPrediction(oddsConsensus))
    + PushIf(|mlConsensus| > 0, MlConsensusPrediction(mlConsensus))
    + PushIf(|oddsDistribution| > 0, OddsDistributionPrediction(oddsDistribution))
  }

  /** The confidence tier of the data-quality score. */
  function ConfidenceTier(score: real): Level {
    if score > 0.7 then High else if score > 0.4 then Medium else Low
  }

  function RiskFactors(quality: QualityReport): seq<RiskFactor> {
    (if quality.jackpotDataAvailable == 0 then [LimitedJackpotData] else [])
    + (if quality.dateSpecificData == 0 then [NoTargetDateData] else [])
  }

  /** The five first of the top teams, when there are more than five. */
  function PriorityTeams(topTeams: seq<(string, nat)>): Option<seq<string>> {
    if |topTeams| > 5 then Some(Keys(topTeams[..5])) else None
  }

  /** `generatePredictionInsights`. */
  function GeneratePredictionInsights(patterns: Patterns, captured: Option<Captured>): Insights {
    var quality := AssessDataQuality(captured);
    Insights(
      ConfidenceTier(quality.overallScore), InsightPredictions(patterns), RiskFactors(quality),
      PriorityTeams(TopTeams(patterns.teamFrequency)))
  }

  predicate NonEmptyPrediction(p: Prediction) {
    match p
    case TeamFrequencyPrediction(teams) => teams != []
    case WinProbabilityPrediction(matches) => matches != []
    case OddsConsensusPrediction(entries) => entries != []
    case MlConsensusPrediction(entries) => entries != []
    case OddsDistributionPrediction(ranges) => ranges != []
  }

  /** No prediction is pushed with an empty list, and the team
      frequencies come first exactly when a team was counted. */
  lemma InsightPredictionsMeans(patterns: Patterns)
    ensures forall i :: 0 <= i < |InsightPredictions(patterns)| ==> NonEmptyPrediction(InsightPredictions(patterns)[i])
    ensures (InsightPredictions(patterns) != [] && InsightPredictions(patterns)[0].TeamFrequencyPrediction?)
            <==> patterns.teamFrequency != []
  {
    assert |TopTeams(patterns.teamFrequency)| > 0 <==> patterns.teamFrequency != [];
  }

  /** A risk factor names each missing kind of data. */
  lemma RiskFactorsMean(captured: Option<Captured>)
    ensures LimitedJackpotData in RiskFactors(AssessDataQuality(captured))
            <==> captured.None? || captured.value.jackpotData == []
    ensures NoTargetDateData in RiskFactors(AssessDataQuality(captured)) <==>
      captured.None? || forall i :: 0 <= i < |captured.value.jackpotData| ==> !MentionsTargetDate(captured.value.jackpotData[i])
  {
  }

  /** The priority teams are the five most frequent teams, named when
      more than five teams were counted. */
  lemma PriorityTeamsMean(teamFrequency: Tally<string>)
    ensures PriorityTeams(TopTeams(teamFrequency)).Some? <==> |teamFrequency| > 5
    ensures PriorityTeams(TopTeams(teamFrequency)).Some? ==>
      PriorityTeams(TopTeams(teamFrequency)).value == Keys(ByCount(teamFrequency)[..5])
  {
    var topTeams := TopTeams(teamFrequency);
    assert topTeams == ByCount(teamFrequency)[..|topTeams|];
    if |topTeams| > 5 {
      assert topTeams[..5] == ByCount(teamFrequency)[..5];
    }
  }

  // ---------------------------------------------------------------------
  // analyzeJackpotPatterns

  /** The `intelligence` part of the intelligence report; a list that is
      missing is `None`. */
  datatype ReportIntelligence = ReportIntelligence(
    winProbabilities: Option<Entries<string, MatchProbability>>, externalOdds: Option<seq<OddsEntry>>,
    mlPredictions: Option<seq<MlPrediction>>, decryptedTraffic: Option<seq<TrafficRecord>>)

  /** `final_report`: the captured data and the intelligence report. */
  datatype FinalReport = FinalReport(capturedData: Option<Captured>, intelligence: Option<ReportIntelligence>)

  function PatternsOf(report: FinalReport): Patterns {
    var jackpot := if report.capturedData.Some? then report.capturedData.value.jackpotData else [];
    var odds := if report.capturedData.Some? then report.capturedData.value.oddsData else [];
    var intel := report.intelligence;
    Patterns(
      TallyOf(NamesOf(jackpot)), TallyOf(RangesOf(odds)), TallyOf(DatesOf(jackpot)), TallyOf(TypesOf(jackpot)),
      if intel.Some? && intel.value.winProbabilities.Some? then intel.value.winProbabilities.value else [],
      if intel.Some? && intel.value.externalOdds.Some? then Some(ExternalOddsAnalysis(intel.value.externalOdds.value)) else None,
      if intel.Some? && intel.value.mlPredictions.Some? then Some(MlAnalysisOf(intel.value.mlPredictions.value)) else None,
      if intel.Some? && intel.value.decryptedTraffic.Some? then Some(TrafficAnalysisOf(intel.value.decryptedTraffic.value)) else None)
  }

  /** `analyzeJackpotPatterns`. */
  method AnalyzeJackpotPatterns(report: FinalReport) returns (patterns: Patterns)
    ensures patterns == PatternsOf(report)
  {
    var teamFrequency, matchTypes, datePatterns := [], [], [];
    var oddRanges := [];
    if report.capturedData.Some? {
      teamFrequency, matchTypes, datePatterns := CountJackpotData(report.capturedData.value.jackpotData);
      oddRanges := CountOddsRanges(report.capturedData.value.oddsData);
    }
    var winProbabilities := [];
    var externalOddsAnalysis, mlPredictions, trafficIntelligence := None, None, None;
    if report.intelligence.Some? {
      var intel := report.intelligence.value;
      if intel.winProbabilities.Some? {
        winProbabilities := intel.winProbabilities.value;
      }
      if intel.externalOdds.Some? {
        var analysis := AnalyzeExternalOddsPatterns(intel.externalOdds.value);
        externalOddsAnalysis := Some(analysis);
      }
      if intel.mlPredictions.Some? {
        var analysis := AnalyzeMlPredictionPatterns(intel.mlPredictions.value);
        mlPredictions := Some(analysis);
      }
      if intel.decryptedTraffic.Some? {
        var analysis := AnalyzeTrafficIntelligence(intel.decryptedTraffic.value);
        trafficIntelligence := Some(analysis);
      }
    }
    patterns := Patterns(
      teamFrequency, oddRanges, datePatterns, matchTypes, winProbabilities,
      externalOddsAnalysis, mlPredictions, trafficIntelligence);
  }
}
