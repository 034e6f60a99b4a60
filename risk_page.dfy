/**
 * The risk assessment page: the effect that narrows the assessments by a
 * search term and a tier and orders them by score, highest first; the list
 * update after one athlete's assessment is refreshed; the tier counts in the
 * summary cards; and the tier-to-badge, icon and colour tables. The
 * assessments are `RiskScoring.Assessment` values.
 */
module RiskPage {
  import opened Text
  import opened Records
  import opened Seqs
  import opened RiskScoring

  /** The search calls `toLowerCase` on the name and position, so they must hold strings. */
  predicate Searchable(a: Assessment) {
    a.athleteName.Some? && a.athleteName.value.Text? && a.position.Some? && a.position.value.Text?
  }

  /** The lowercased term occurs in the lowercased athlete name or position. */
  predicate MatchesSearch(a: Assessment, term: string) {
    var t := ToLower(term);
    TextIncludes(a.athleteName, t) || TextIncludes(a.position, t)
  }

  /** Whether an assessment survives the search (when a term is typed) and the tier filter (unless it is `'all'`). */
  predicate Shown(a: Assessment, term: string, riskFilter: string) {
    && (term != "" ==> MatchesSearch(a, term))
    && (riskFilter != "all" ==> a.riskLevel == riskFilter)
  }

  /** `Shown` as a filter callback. */
  function ShownBy(term: string, riskFilter: string): Assessment -> bool {
    (a: Assessment) => Shown(a, term, riskFilter)
  }

  /** The assessments passing both filters, in their original order. */
  function Matching(assessments: seq<Assessment>, term: string, riskFilter: string): (r: seq<Assessment>)
    ensures forall a :: a in r <==> a in assessments && Shown(a, term, riskFilter)
    ensures IsSubsequence(r, assessments)
  {
    FilterIsSubsequence(assessments, ShownBy(term, riskFilter));
    Filter(assessments, ShownBy(term, riskFilter))
  }

  /** The comparator `(a, b) => b.riskScore - a.riskScore` sorts ascending by the negated score. */
  function ScoreKey(a: Assessment): int {
    -a.riskScore
  }

  /**
   * `filterAssessments`: filter by the search term, then by tier, then sort
   * by score with the highest first; the sort is stable, so equal scores
   * keep their original order.
   */
  method FilterAssessments(assessments: seq<Assessment>, term: string, riskFilter: string) returns (filtered: seq<Assessment>)
    requires term != "" ==> forall a :: a in assessments ==> Searchable(a)
    ensures filtered == SortBy(Matching(assessments, term, riskFilter), ScoreKey)
    ensures forall i, j :: 0 <= i < j < |filtered| ==> filtered[i].riskScore >= filtered[j].riskScore
    ensures multiset(filtered) == multiset(Matching(assessments, term, riskFilter))
    ensures forall a :: a in filtered <==> a in assessments && Shown(a, term, riskFilter)
  {
    var search := a => term != "" ==> MatchesSearch(a, term);
    var tier := (a: Assessment) => riskFilter != "all" ==> a.riskLevel == riskFilter;
    ghost var shown := ShownBy(term, riskFilter);
    filtered := assessments;
    if term != "" {
      var matches := a => MatchesSearch(a, term);
      filtered := Filter(filtered, matches);
      FilterExt(assessments, matches, search);
    } else {
      FilterAll(assessments, search);
    }
    ghost var afterSearch := filtered;
    if riskFilter != "all" {
      var inTier := (a: Assessment) => a.riskLevel == riskFilter;
      filtered := Filter(filtered, inTier);
      FilterExt(afterSearch, inTier, tier);
    } else {
      FilterAll(afterSearch, tier);
    }
    FilterFilter(assessments, search, tier, shown);
    assert filtered == Matching(assessments, term, riskFilter);
    filtered := SortBy(filtered, ScoreKey);
    HighestFirst(Matching(assessments, term, riskFilter));
  }

  /** Sorting by `ScoreKey` puts higher scores first and keeps exactly the same entries. */
  lemma HighestFirst(s: seq<Assessment>)
    ensures var r := SortBy(s, ScoreKey);
      && (forall i, j :: 0 <= i < j < |r| ==> r[i].riskScore >= r[j].riskScore)
      && (forall a :: a in r <==> a in s)
  {
    var r := SortBy(s, ScoreKey);
    forall i, j | 0 <= i < j < |r|
      ensures r[i].riskScore >= r[j].riskScore
    {
      assert ScoreKey(r[i]) <= ScoreKey(r[j]);
    }
    forall a
      ensures a in r <==> a in s
    {
      assert a in r <==> a in multiset(r);
      assert a in s <==> a in multiset(s);
    }
  }

  /** `prev.map(a => a.athleteId === athleteId ? updatedAssessment : a)` */
  function Refreshed(assessments: seq<Assessment>, athleteId: Option<Value>, updated: Assessment): (r: seq<Assessment>)
    ensures |r| == |assessments|
    ensures forall i :: 0 <= i < |r| ==> r[i] == if StrictEq(assessments[i].athleteId, athleteId) then updated else assessments[i]
  {
    seq(|assessments|, i requires 0 <= i < |assessments| =>
      if StrictEq(assessments[i].athleteId, athleteId) then updated else assessments[i])
  }

  /** Refreshing an athlete the list does not hold changes nothing. */
  lemma RefreshMissingIsNoOp(assessments: seq<Assessment>, athleteId: Option<Value>, updated: Assessment)
    requires forall a :: a in assessments ==> !StrictEq(a.athleteId, athleteId)
    ensures Refreshed(assessments, athleteId, updated) == assessments
  {
    var r := Refreshed(assessments, athleteId, updated);
    forall i | 0 <= i < |r|
      ensures r[i] == assessments[i]
    {
      assert assessments[i] in assessments;
    }
  }

  /** When one entry holds the athlete, refreshing overwrites exactly that position. */
  lemma RefreshSingle(assessments: seq<Assessment>, athleteId: Option<Value>, updated: Assessment, i: nat)
    requires i < |assessments| && StrictEq(assessments[i].athleteId, athleteId)
    requires forall k :: 0 <= k < |assessments| && k != i ==> !StrictEq(assessments[k].athleteId, athleteId)
    ensures Refreshed(assessments, athleteId, updated) == assessments[i := updated]
  {
  }

  /** A refreshed assessment for the same athlete keeps every entry's athlete, in order. */
  lemma RefreshKeepsAthletes(assessments: seq<Assessment>, athleteId: Option<Value>, updated: Assessment)
    requires updated.athleteId == athleteId
    ensures forall i :: 0 <= i < |assessments| ==>
      Refreshed(assessments, athleteId, updated)[i].athleteId == assessments[i].athleteId
  {
  }

  /** The summary cards. */
  datatype Stats = Stats(total: nat, high: nat, medium: nat, low: nat)

  /** `a => a.riskLevel === level` */
  function InTier(level: string): Assessment -> bool {
    (a: Assessment) => a.riskLevel == level
  }

  /** `getRiskStats`: the number of assessments, and how many are in each tier. */
  function RiskStats(assessments: seq<Assessment>): (r: Stats)
    ensures r.total == |assessments|
    ensures r.high <= r.total && r.medium <= r.total && r.low <= r.total
  {
    Stats(|assessments|, Count(assessments, InTier("high")), Count(assessments, InTier("medium")), Count(assessments, InTier("low")))
  }

  /** When every assessment is in one of the three tiers, the tier counts add up to the total. */
  lemma StatsAddUp(assessments: seq<Assessment>)
    requires forall a :: a in assessments ==> a.riskLevel in ["high", "medium", "low"]
    ensures var r := RiskStats(assessments); r.high + r.medium + r.low == r.total
  {
    forall a | a in assessments
      ensures InTier("high")(a) || InTier("medium")(a) || InTier("low")(a)
    {
      assert a.riskLevel in ["high", "medium", "low"];
    }
    CountPartition(assessments, InTier("high"), InTier("medium"), InTier("low"));
  }

  /** For assessments the engine produced, whose tier follows from the score, the counts add up. */
  lemma EngineStatsAddUp(assessments: seq<Assessment>)
    requires forall a :: a in assessments ==> a.riskLevel == DetermineRiskLevel(a.riskScore)
    ensures var r := RiskStats(assessments); r.high + r.medium + r.low == r.total
  {
    StatsAddUp(assessments);
  }

  predicate IsTier(level: string) {
    level == "high" || level == "medium" || level == "low"
  }

  /** `getRiskBadgeVariant` */
  function BadgeVariant(level: string): (v: string)
    ensures v == "secondary" <==> !IsTier(level)
  {
    match level
    case "high" => "danger"
    case "medium" => "warning"
    case "low" => "success"
    case _ => "secondary"
  }

  /** `getRiskIcon` */
  function RiskIcon(level: string): (icon: string)
    ensures icon == "HelpCircle" <==> !IsTier(level)
  {
    match level
    case "high" => "AlertTriangle"
    case "medium" => "AlertCircle"
    case "low" => "CheckCircle"
    case _ => "HelpCircle"
  }

  /** `getRiskColor` */
  function RiskColor(level: string): (c: string)
    ensures c == "text-secondary-600" <==> !IsTier(level)
  {
    match level
    case "high" => "text-red-600"
    case "medium" => "text-yellow-600"
    case "low" => "text-green-600"
    case _ => "text-secondary-600"
  }

  /** The page's badge table agrees with the service's tier colour for every level. */
  lemma BadgeIsServiceColor(level: string)
    ensures BadgeVariant(level) == RiskLevelColor(level)
  {
  }

  /** Distinct tiers get distinct badges, icons and colours. */
  lemma TierMapsDistinguishTiers(a: string, b: string)
    requires IsTier(a) && IsTier(b) && a != b
    ensures BadgeVariant(a) != BadgeVariant(b)
    ensures RiskIcon(a) != RiskIcon(b)
    ensures RiskColor(a) != RiskColor(b)
  {
  }
}
