/**
 * The injury-risk scoring engine. Three sub-scorers add fixed points for
 * threshold rules over a signal and cap the total (training 40, injury 35,
 * performance 25); the composite is their sum, a step function turns it into
 * a tier, and the recommendations are the tier's base list followed by
 * additions chosen by substring matches against the produced factor strings.
 *
 * A signal is `None` when the source receives an empty object. Days since the
 * last injury or performance are inputs (`None` when the date field is absent;
 * an unparsable date yields `NaN`, whose comparisons are all false, so it
 * behaves like `None`). Each scorer is a method that accumulates as the
 * source does and is proved equal to the rule-table function of the same
 * name without the `Calculate` prefix.
 */
module RiskScoring {
  import opened Text
  import opened Records
  import opened RiskFactors

  datatype TrainingLoad = TrainingLoad(avgIntensity: real, loadSpike: bool, sessionCount: int, recentLoad: real, totalLoad: real)
  datatype InjuryHistory = InjuryHistory(recentInjuries: int, severeInjuries: int, totalInjuries: int, daysSinceLastInjury: Option<real>)
  datatype PerformanceTrend = PerformanceTrend(recentDecline: bool, avgScore: real, fatigueIndicators: int, daysSinceLastPerformance: Option<real>)

  /** What a sub-scorer returns: `{ score, factors }`. */
  datatype SubScore = SubScore(score: int, factors: seq<Factor>)

  /** What `calculateRiskScore` returns, without the `lastUpdated` timestamp. */
  datatype Assessment = Assessment(
    athleteId: Option<Value>,
    athleteName: Option<Value>,
    position: Option<Value>,
    riskScore: int,
    riskLevel: string,
    riskFactors: seq<Factor>,
    recommendations: seq<Advice>,
    trainingRisk: int,
    injuryRisk: int,
    performanceRisk: int)

  /** One recommendation; `AdviceText` is the text the source pushes. */
  datatype Advice =
    | RestPeriod
    | CutIntensityHigh
    | MedicalEvaluation
    | ActiveRecovery
    | MonitorClosely
    | CutIntensityMedium
    | RecoveryMobility
    | LighterSessions
    | ContinueRegimen
    | RegularMonitoring
    | InjuryPrevention
    | GradualLoad
    | InjuryRehab
    | ReviewMethodology
    | SportsPsychology
    | SleepNutrition

  function AdviceText(a: Advice): string {
    match a
    case RestPeriod => "Immediate rest period recommended (2-3 days)"
    case CutIntensityHigh => "Reduce training intensity by 40-50%"
    case MedicalEvaluation => "Schedule medical evaluation"
    case ActiveRecovery => "Implement active recovery protocols"
    case MonitorClosely => "Monitor closely for next 7 days"
    case CutIntensityMedium => "Reduce training intensity by 20-30%"
    case RecoveryMobility => "Focus on recovery and mobility work"
    case LighterSessions => "Consider lighter training sessions"
    case ContinueRegimen => "Continue current training regimen"
    case RegularMonitoring => "Maintain regular monitoring"
    case InjuryPrevention => "Focus on injury prevention exercises"
    case GradualLoad => "Implement gradual load progression"
    case InjuryRehab => "Focus on injury site rehabilitation"
    case ReviewMethodology => "Review training methodology"
    case SportsPsychology => "Consider sports psychology consultation"
    case SleepNutrition => "Prioritize sleep and nutrition optimization"
  }

  function Min(a: int, b: int): int {
    if a < b then a else b
  }

  // ---------------------------------------------------------------- training

  /** The points of every triggered training rule, before the cap. */
  function TrainingPoints(d: TrainingLoad): int {
    (if d.avgIntensity > 8.0 then 15 else if d.avgIntensity > 6.0 then 8 else 0)
    + (if d.loadSpike then 20 else 0)
    + (if d.sessionCount < 8 then 12 else 0)
    + (if d.recentLoad > d.totalLoad * 0.6 then 8 else 0)
  }

  /** The factor of every triggered training rule, in rule order. */
  function TrainingFactors(d: TrainingLoad): seq<Factor> {
    var f0: seq<Factor> := [];
    var f1 := if d.avgIntensity > 8.0 then f0 + [HighIntensity] else if d.avgIntensity > 6.0 then f0 + [ModerateIntensity] else f0;
    var f2 := if d.loadSpike then f1 + [LoadSpike] else f1;
    var f3 := if d.sessionCount < 8 then f2 + [LowFrequency] else f2;
    if d.recentLoad > d.totalLoad * 0.6 then f3 + [ConcentratedLoad] else f3
  }

  /** The training sub-score: 10 with the insufficient-data factor for no data, otherwise the capped rule total. */
  function TrainingRisk(t: Option<TrainingLoad>): (r: SubScore)
    ensures 0 <= r.score <= 40
    ensures t.Some? ==> (r.score > 0 <==> r.factors != [])
  {
    match t
    case None => SubScore(10, [InsufficientTraining])
    case Some(d) => SubScore(Min(TrainingPoints(d), 40), TrainingFactors(d))
  }

  /** `calculateTrainingRisk` */
  method CalculateTrainingRisk(t: Option<TrainingLoad>) returns (r: SubScore)
    ensures t.None? ==> r == SubScore(10, [InsufficientTraining])
    ensures r == TrainingRisk(t)
  {
    if t.None? {
      return SubScore(10, [InsufficientTraining]);
    }
    var d := t.value;
    var score := 0;
    var factors: seq<Factor> := [];
    if d.avgIntensity > 8.0 {
      score := score + 15;
      factors := factors + [HighIntensity];
    } else if d.avgIntensity > 6.0 {
      score := score + 8;
      factors := factors + [ModerateIntensity];
    }
    if d.loadSpike {
      score := score + 20;
      factors := factors + [LoadSpike];
    }
    if d.sessionCount < 8 {
      score := score + 12;
      factors := factors + [LowFrequency];
    }
    if d.recentLoad > d.totalLoad * 0.6 {
      score := score + 8;
      factors := factors + [ConcentratedLoad];
    }
    r := SubScore(Min(score, 40), factors);
  }

  // ------------------------------------------------------------------ injury

  /** The points of every triggered injury rule, before the cap. */
  function InjuryPoints(d: InjuryHistory): int {
    (if d.recentInjuries > 0 then d.recentInjuries * 10 else 0)
    + (if d.severeInjuries > 0 then d.severeInjuries * 8 else 0)
    + (if d.totalInjuries > 5 then 10 else if d.totalInjuries > 2 then 5 else 0)
    + (match d.daysSinceLastInjury
       case None => 0
       case Some(days) => if days < 30.0 then 12 else if days < 90.0 then 6 else 0)
  }

  /** The factor of every triggered injury rule, in rule order. */
  function InjuryFactors(d: InjuryHistory): seq<Factor> {
    var f0: seq<Factor> := [];
    var f1 := if d.recentInjuries > 0 then f0 + [RecentInjuries(d.recentInjuries)] else f0;
    var f2 := if d.severeInjuries > 0 then f1 + [SevereInjuries(d.severeInjuries)] else f1;
    var f3 := if d.totalInjuries > 5 then f2 + [HighInjuryCount] else if d.totalInjuries > 2 then f2 + [ModerateInjuryHistory] else f2;
    match d.daysSinceLastInjury
    case None => f3
    case Some(days) => if days < 30.0 then f3 + [VeryRecentInjury] else if days < 90.0 then f3 + [RecentInjury] else f3
  }

  /** The injury sub-score: 0 with no factors for no data, otherwise the capped rule total. */
  function InjuryRisk(i: Option<InjuryHistory>): (r: SubScore)
    ensures 0 <= r.score <= 35
    ensures r.score > 0 <==> r.factors != []
  {
    match i
    case None => SubScore(0, [])
    case Some(d) => SubScore(Min(InjuryPoints(d), 35), InjuryFactors(d))
  }

  /** `calculateInjuryRisk` */
  method CalculateInjuryRisk(i: Option<InjuryHistory>) returns (r: SubScore)
    ensures i.None? ==> r == SubScore(0, [])
    ensures r == InjuryRisk(i)
  {
    if i.None? {
      return SubScore(0, []);
    }
    var d := i.value;
    var score := 0;
    var factors: seq<Factor> := [];
    if d.recentInjuries > 0 {
      score := score + d.recentInjuries * 10;
      factors := factors + [RecentInjuries(d.recentInjuries)];
    }
    if d.severeInjuries > 0 {
      score := score + d.severeInjuries * 8;
      factors := factors + [SevereInjuries(d.severeInjuries)];
    }
    if d.totalInjuries > 5 {
      score := score + 10;
      factors := factors + [HighInjuryCount];
    } else if d.totalInjuries > 2 {
      score := score + 5;
      factors := factors + [ModerateInjuryHistory];
    }
    if d.daysSinceLastInjury.Some? {
      var days := d.daysSinceLastInjury.value;
      if days < 30.0 {
        score := score + 12;
        factors := factors + [VeryRecentInjury];
      } else if days < 90.0 {
        score := score + 6;
        factors := factors + [RecentInjury];
      }
    }
    r := SubScore(Min(score, 35), factors);
  }

  // ------------------------------------------------------------- performance

  /** The points of every triggered performance rule, before the cap. */
  function PerformancePoints(d: PerformanceTrend): int {
    (if d.recentDecline then 15 else 0)
    + (if d.avgScore < 60.0 then 10 else if d.avgScore < 70.0 then 5 else 0)
    + (if d.fatigueIndicators > 3 then 8 else if d.fatigueIndicators > 1 then 4 else 0)
    + (match d.daysSinceLastPerformance
       case None => 0
       case Some(days) => if days > 14.0 then 3 else 0)
  }

  /** The factor of every triggered performance rule, in rule order. */
  function PerformanceFactors(d: PerformanceTrend): seq<Factor> {
    var f0: seq<Factor> := [];
    var f1 := if d.recentDecline then f0 + [PerformanceDecline] else f0;
    var f2 := if d.avgScore < 60.0 then f1 + [BelowAverage] else if d.avgScore < 70.0 then f1 + [ModerateConcerns] else f1;
    var f3 := if d.fatigueIndicators > 3 then f2 + [MultipleFatigue] else if d.fatigueIndicators > 1 then f2 + [SomeFatigue] else f2;
    match d.daysSinceLastPerformance
    case None => f3
    case Some(days) => if days > 14.0 then f3 + [StalePerformance] else f3
  }

  /** The performance sub-score: 5 with the limited-data factor for no data, otherwise the capped rule total. */
  function PerformanceRisk(p: Option<PerformanceTrend>): (r: SubScore)
    ensures 0 <= r.score <= 25
    ensures p.Some? ==> (r.score > 0 <==> r.factors != [])
  {
    match p
    case None => SubScore(5, [LimitedPerformance])
    case Some(d) => SubScore(Min(PerformancePoints(d), 25), PerformanceFactors(d))
  }

  /** `calculatePerformanceRisk` */
  method CalculatePerformanceRisk(p: Option<PerformanceTrend>) returns (r: SubScore)
    ensures p.None? ==> r == SubScore(5, [LimitedPerformance])
    ensures r == PerformanceRisk(p)
  {
    if p.None? {
      return SubScore(5, [LimitedPerformance]);
    }
    var d := p.value;
    var score := 0;
    var factors: seq<Factor> := [];
    if d.recentDecline {
      score := score + 15;
      factors := factors + [PerformanceDecline];
    }
    if d.avgScore < 60.0 {
      score := score + 10;
      factors := factors + [BelowAverage];
    } else if d.avgScore < 70.0 {
      score := score + 5;
      factors := factors + [ModerateConcerns];
    }
    if d.fatigueIndicators > 3 {
      score := score + 8;
      factors := factors + [MultipleFatigue];
    } else if d.fatigueIndicators > 1 {
      score := score + 4;
      factors := factors + [SomeFatigue];
    }
    if d.daysSinceLastPerformance.Some? && d.daysSinceLastPerformance.value > 14.0 {
      score := score + 3;
      factors := factors + [StalePerformance];
    }
    r := SubScore(Min(score, 25), factors);
  }

  // ------------------------------------------------------------------- tiers

  /** `determineRiskLevel`: a step function with thresholds 60 and 30. */
  function DetermineRiskLevel(score: int): (level: string)
    ensures level == "high" <==> score >= 60
    ensures level == "medium" <==> 30 <= score < 60
    ensures level == "low" <==> score < 30
  {
    if score >= 60 then "high" else if score >= 30 then "medium" else "low"
  }

  function TierRank(level: string): int {
    if level == "high" then 2 else if level == "medium" then 1 else 0
  }

  /** A higher score never yields a lower tier. */
  lemma RiskLevelMonotone(a: int, b: int)
    requires a <= b
    ensures TierRank(DetermineRiskLevel(a)) <= TierRank(DetermineRiskLevel(b))
  {
  }

  /** The documented boundaries: 29 low, 30 medium, 59 medium, 60 high. */
  lemma RiskLevelBoundaries()
    ensures DetermineRiskLevel(29) == "low" && DetermineRiskLevel(30) == "medium"
    ensures DetermineRiskLevel(59) == "medium" && DetermineRiskLevel(60) == "high"
  {
  }

  /** `getRiskLevelColor` */
  function RiskLevelColor(level: string): (c: string)
    ensures c == "secondary" <==> level != "high" && level != "medium" && level != "low"
  {
    if level == "high" then "danger"
    else if level == "medium" then "warning"
    else if level == "low" then "success"
    else "secondary"
  }

  /** `getRiskLevelText` */
  function RiskLevelText(level: string): (t: string)
    ensures t == "Unknown" <==> level != "high" && level != "medium" && level != "low"
  {
    if level == "high" then "High Risk"
    else if level == "medium" then "Medium Risk"
    else if level == "low" then "Low Risk"
    else "Unknown"
  }

  /** Every tier the engine produces has its own colour and label; distinct tiers get distinct ones. */
  lemma TiersAreLabelled(a: int, b: int)
    ensures RiskLevelColor(DetermineRiskLevel(a)) != "secondary"
    ensures RiskLevelText(DetermineRiskLevel(a)) != "Unknown"
    ensures DetermineRiskLevel(a) != DetermineRiskLevel(b) ==>
      RiskLevelColor(DetermineRiskLevel(a)) != RiskLevelColor(DetermineRiskLevel(b))
      && RiskLevelText(DetermineRiskLevel(a)) != RiskLevelText(DetermineRiskLevel(b))
  {
  }


  // --------------------------------------------------------- recommendations

  /** Some factor is one the trigger table names for the key. */
  predicate Triggered(factors: seq<Factor>, k: Key) {
    exists f :: f in factors && Triggers(f, k)
  }

  /** Some factor's text holds the key exactly when some factor is one the trigger table names. */
  lemma TriggeredIffSomeMatch(factors: seq<Factor>, k: Key)
    ensures Triggered(factors, k) <==> exists f :: f in factors && Matches(f, k)
  {
    forall f | f in factors
      ensures Matches(f, k) <==> Triggers(f, k)
    {
      MatchesIffTriggers(f, k);
    }
  }

  /** `f.includes(KeyText(k))` for one factor: true exactly for the factors the trigger table names. */
  method FactorIncludes(f: Factor, k: Key) returns (hit: bool)
    ensures hit <==> Triggers(f, k)
  {
    MatchesIffTriggers(f, k);
    hit := Contains(FactorText(f), KeyText(k));
  }

  /**
   * `riskFactors.some(f => f.includes(KeyText(k)))`: scans the factors left
   * to right and stops at the first whose text holds the key.
   */
  method SomeFactorMatches(factors: seq<Factor>, k: Key) returns (found: bool)
    ensures found <==> Triggered(factors, k)
  {
    found := false;
    var i := 0;
    while i < |factors| && !found
      invariant 0 <= i <= |factors|
      invariant found <==> exists j :: 0 <= j < i && Triggers(factors[j], k)
    {
      found := FactorIncludes(factors[i], k);
      i := i + 1;
    }
  }

  /** The tier's fixed advice, in declared order; an unknown tier has none. */
  function BaseRecommendations(level: string): (r: seq<Advice>)
    ensures level == "high" ==> |r| == 4
    ensures level == "medium" ==> |r| == 4
    ensures level == "low" ==> |r| == 3
  {
    if level == "high" then [RestPeriod, CutIntensityHigh, MedicalEvaluation, ActiveRecovery]
    else if level == "medium" then [MonitorClosely, CutIntensityMedium, RecoveryMobility, LighterSessions]
    else if level == "low" then [ContinueRegimen, RegularMonitoring, InjuryPrevention]
    else []
  }

  /**
   * The base list followed by the advice whose flags are set, in the order
   * the source tests the four keys.
   */
  function WithAdditions(base: seq<Advice>, spike: bool, injury: bool, decline: bool, fatigue: bool): (r: seq<Advice>)
    ensures |r| >= |base| && r[..|base|] == base
  {
    var r1 := if spike then base + [GradualLoad] else base;
    var r2 := if injury then r1 + [InjuryRehab] else r1;
    var r3 := if decline then r2 + [ReviewMethodology] + [SportsPsychology] else r2;
    if fatigue then r3 + [SleepNutrition] else r3
  }

  /** No tier's base list holds any of the factor-driven advice. */
  lemma BaseHoldsNoAddition(level: string)
    ensures GradualLoad !in BaseRecommendations(level) && InjuryRehab !in BaseRecommendations(level)
    ensures ReviewMethodology !in BaseRecommendations(level) && SportsPsychology !in BaseRecommendations(level)
    ensures SleepNutrition !in BaseRecommendations(level)
  {
  }

  /** Each factor-driven advice is in the result exactly when it is in the base list or its flag is set. */
  lemma WithAdditionsMembers(base: seq<Advice>, spike: bool, injury: bool, decline: bool, fatigue: bool)
    ensures GradualLoad in WithAdditions(base, spike, injury, decline, fatigue) <==> GradualLoad in base || spike
    ensures InjuryRehab in WithAdditions(base, spike, injury, decline, fatigue) <==> InjuryRehab in base || injury
    ensures ReviewMethodology in WithAdditions(base, spike, injury, decline, fatigue) <==> ReviewMethodology in base || decline
    ensures SportsPsychology in WithAdditions(base, spike, injury, decline, fatigue) <==> SportsPsychology in base || decline
    ensures SleepNutrition in WithAdditions(base, spike, injury, decline, fatigue) <==> SleepNutrition in base || fatigue
  {
  }

  /**
   * The position of a factor-driven advice in the order the source tests the
   * keys (load spike, recent injury, decline, fatigue); 0 for a base advice.
   */
  function AdditionRank(a: Advice): nat {
    match a
    case GradualLoad => 1
    case InjuryRehab => 2
    case ReviewMethodology => 3
    case SportsPsychology => 4
    case SleepNutrition => 5
    case _ => 0
  }

  /** The additions occur strictly by rank from position `n` on, none of rank above `m`. */
  predicate RankedFrom(r: seq<Advice>, n: nat, m: nat) {
    && (forall i :: n <= i < |r| ==> 0 < AdditionRank(r[i]) <= m)
    && (forall i, j :: n <= i < j < |r| ==> AdditionRank(r[i]) < AdditionRank(r[j]))
  }

  /** Appending an advice, when its flag is set, of a rank above every earlier addition keeps the additions ranked. */
  lemma RankedAppend(r: seq<Advice>, n: nat, m: nat, flag: bool, a: Advice)
    requires n <= |r| && RankedFrom(r, n, m) && m < AdditionRank(a)
    ensures RankedFrom(if flag then r + [a] else r, n, AdditionRank(a))
  {
    var t := r + [a];
    assert forall i :: n <= i < |r| ==> t[i] == r[i];
  }

  /**
   * After the base list, each flagged advice appears once and they follow the
   * order the source tests the keys in; the two decline items count as two.
   */
  lemma AdditionsInOrder(base: seq<Advice>, spike: bool, injury: bool, decline: bool, fatigue: bool)
    ensures var r := WithAdditions(base, spike, injury, decline, fatigue);
      |r| == |base| + (if spike then 1 else 0) + (if injury then 1 else 0) + (if decline then 2 else 0) + (if fatigue then 1 else 0)
    ensures RankedFrom(WithAdditions(base, spike, injury, decline, fatigue), |base|, 5)
  {
    var n := |base|;
    var r1 := if spike then base + [GradualLoad] else base;
    var r2 := if injury then r1 + [InjuryRehab] else r1;
    var r3a := if decline then r2 + [ReviewMethodology] else r2;
    var r3 := if decline then r3a + [SportsPsychology] else r3a;
    var r4 := if fatigue then r3 + [SleepNutrition] else r3;
    RankedAppend(base, n, 0, spike, GradualLoad);
    RankedAppend(r1, n, 1, injury, InjuryRehab);
    RankedAppend(r2, n, 2, decline, ReviewMethodology);
    RankedAppend(r3a, n, 3, decline, SportsPsychology);
    RankedAppend(r3, n, 4, fatigue, SleepNutrition);
  }

  /** What `generateRecommendations` returns: the tier's base list, then the advice of each triggered key. */
  function Recommendations(level: string, factors: seq<Factor>): (r: seq<Advice>)
    ensures |r| >= |BaseRecommendations(level)| && r[..|BaseRecommendations(level)|] == BaseRecommendations(level)
  {
    WithAdditions(BaseRecommendations(level), Triggered(factors, LoadSpikeKey), Triggered(factors, RecentInjuryKey),
      Triggered(factors, DeclineKey), Triggered(factors, FatigueKey))
  }

  /** Each factor-driven advice is present exactly when its key is triggered, whatever the tier. */
  lemma AdviceIffTriggered(level: string, factors: seq<Factor>)
    ensures GradualLoad in Recommendations(level, factors) <==> Triggered(factors, LoadSpikeKey)
    ensures InjuryRehab in Recommendations(level, factors) <==> Triggered(factors, RecentInjuryKey)
    ensures ReviewMethodology in Recommendations(level, factors) <==> Triggered(factors, DeclineKey)
    ensures SportsPsychology in Recommendations(level, factors) <==> Triggered(factors, DeclineKey)
    ensures SleepNutrition in Recommendations(level, factors) <==> Triggered(factors, FatigueKey)
  {
    BaseHoldsNoAddition(level);
    WithAdditionsMembers(BaseRecommendations(level), Triggered(factors, LoadSpikeKey), Triggered(factors, RecentInjuryKey),
      Triggered(factors, DeclineKey), Triggered(factors, FatigueKey));
  }

  /**
   * `generateRecommendations` lists the tier's base advice and then one
   * entry per triggered addition, in the order load spike, recent injury,
   * decline (two entries), fatigue; no advice is listed twice.
   */
  lemma RecommendationsInOrder(level: string, factors: seq<Factor>)
    ensures var r := Recommendations(level, factors);
      |r| == |BaseRecommendations(level)|
        + (if Triggered(factors, LoadSpikeKey) then 1 else 0) + (if Triggered(factors, RecentInjuryKey) then 1 else 0)
        + (if Triggered(factors, DeclineKey) then 2 else 0) + (if Triggered(factors, FatigueKey) then 1 else 0)
    ensures var r := Recommendations(level, factors);
      forall i, j :: |BaseRecommendations(level)| <= i < j < |r| ==> 0 < AdditionRank(r[i]) < AdditionRank(r[j])
    ensures var r := Recommendations(level, factors);
      forall i, j :: 0 <= i < j < |r| ==> r[i] != r[j]
  {
    var base := BaseRecommendations(level);
    var r := Recommendations(level, factors);
    AdditionsInOrder(base, Triggered(factors, LoadSpikeKey), Triggered(factors, RecentInjuryKey),
      Triggered(factors, DeclineKey), Triggered(factors, FatigueKey));
    assert forall i :: 0 <= i < |base| ==> r[i] == base[i] && AdditionRank(base[i]) == 0;
    assert forall i, j :: 0 <= i < j < |base| ==> base[i] != base[j];
  }

  /** `generateRecommendations` */
  method GenerateRecommendations(level: string, factors: seq<Factor>) returns (recs: seq<Advice>)
    ensures recs == Recommendations(level, factors)
  {
    recs := [];
    if level == "high" {
      recs := recs + [RestPeriod];
      recs := recs + [CutIntensityHigh];
      recs := recs + [MedicalEvaluation];
      recs := recs + [ActiveRecovery];
      assert recs == [RestPeriod, CutIntensityHigh, MedicalEvaluation, ActiveRecovery];
    } else if level == "medium" {
      recs := recs + [MonitorClosely];
      recs := recs + [CutIntensityMedium];
      recs := recs + [RecoveryMobility];
      recs := recs + [LighterSessions];
      assert recs == [MonitorClosely, CutIntensityMedium, RecoveryMobility, LighterSessions];
    } else if level == "low" {
      recs := recs + [ContinueRegimen];
      recs := recs + [RegularMonitoring];
      recs := recs + [InjuryPrevention];
      assert recs == [ContinueRegimen, RegularMonitoring, InjuryPrevention];
    }
    ghost var base := recs;
    assert base == BaseRecommendations(level);
    var spike := SomeFactorMatches(factors, LoadSpikeKey);
    if spike {
      recs := recs + [GradualLoad];
    }
    var injury := SomeFactorMatches(factors, RecentInjuryKey);
    if injury {
      recs := recs + [InjuryRehab];
    }
    var decline := SomeFactorMatches(factors, DeclineKey);
    if decline {
      recs := recs + [ReviewMethodology];
      recs := recs + [SportsPsychology];
    }
    var fatigue := SomeFactorMatches(factors, FatigueKey);
    if fatigue {
      recs := recs + [SleepNutrition];
    }
    assert recs == WithAdditions(base, spike, injury, decline, fatigue);
  }

  /**
   * A lone "Recent injury (within 90 days)" adds no rehabilitation advice:
   * the match is case-sensitive, and its text does not hold "recent injury".
   */
  lemma RecentInjuryAloneAddsNoRehab(level: string)
    ensures !Matches(RecentInjury, RecentInjuryKey)
    ensures InjuryRehab !in Recommendations(level, [RecentInjury])
  {
    RecentInjuryLacksRecentInjury();
  }

  // --------------------------------------------------------------- composite

  /** What `calculateRiskScore` returns for an athlete record and three signals. */
  function Assess(athlete: Record, t: Option<TrainingLoad>, i: Option<InjuryHistory>, p: Option<PerformanceTrend>): (a: Assessment)
    ensures 0 <= a.riskScore <= 100
    ensures a.riskScore == a.trainingRisk + a.injuryRisk + a.performanceRisk
  {
    var tr := TrainingRisk(t);
    var ir := InjuryRisk(i);
    var pr := PerformanceRisk(p);
    var score := tr.score + ir.score + pr.score;
    var level := DetermineRiskLevel(score);
    var factors := tr.factors + ir.factors + pr.factors;
    Assessment(Get(athlete, "Id"), Get(athlete, "name"), Get(athlete, "position"),
      score, level, factors, Recommendations(level, factors), tr.score, ir.score, pr.score)
  }

  /**
   * The first half of `calculateRiskScore`: run the three scorers in order,
   * adding their scores and appending their non-empty factor lists.
   */
  method AccumulateSubScores(t: Option<TrainingLoad>, i: Option<InjuryHistory>, p: Option<PerformanceTrend>)
    returns (riskScore: int, riskFactors: seq<Factor>, trainingRisk: SubScore, injuryRisk: SubScore, performanceRisk: SubScore)
    ensures trainingRisk == TrainingRisk(t) && injuryRisk == InjuryRisk(i) && performanceRisk == PerformanceRisk(p)
    ensures riskScore == trainingRisk.score + injuryRisk.score + performanceRisk.score
    ensures riskFactors == trainingRisk.factors + injuryRisk.factors + performanceRisk.factors
  {
    riskScore := 0;
    riskFactors := [];
    trainingRisk := CalculateTrainingRisk(t);
    riskScore := riskScore + trainingRisk.score;
    if |trainingRisk.factors| > 0 {
      riskFactors := riskFactors + trainingRisk.factors;
    }
    assert riskFactors == trainingRisk.factors;
    injuryRisk := CalculateInjuryRisk(i);
    riskScore := riskScore + injuryRisk.score;
    if |injuryRisk.factors| > 0 {
      riskFactors := riskFactors + injuryRisk.factors;
    }
    assert riskFactors == trainingRisk.factors + injuryRisk.factors;
    performanceRisk := CalculatePerformanceRisk(p);
    riskScore := riskScore + performanceRisk.score;
    if |performanceRisk.factors| > 0 {
      riskFactors := riskFactors + performanceRisk.factors;
    }
  }

  /** `calculateRiskScore`: the sub-scores, then the tier and the advice for the total. */
  method CalculateRiskScore(athlete: Record, t: Option<TrainingLoad>, i: Option<InjuryHistory>, p: Option<PerformanceTrend>)
    returns (a: Assessment)
    ensures a == Assess(athlete, t, i, p)
  {
    var riskScore, riskFactors, trainingRisk, injuryRisk, performanceRisk := AccumulateSubScores(t, i, p);
    var riskLevel := DetermineRiskLevel(riskScore);
    var recommendations := GenerateRecommendations(riskLevel, riskFactors);
    a := Assessment(Get(athlete, "Id"), Get(athlete, "name"), Get(athlete, "position"),
      riskScore, riskLevel, riskFactors, recommendations,
      trainingRisk.score, injuryRisk.score, performanceRisk.score);
  }

  /** The factors are the training factors, then the injury factors, then the performance factors. */
  lemma FactorsInEvaluationOrder(athlete: Record, t: Option<TrainingLoad>, i: Option<InjuryHistory>, p: Option<PerformanceTrend>)
    ensures Assess(athlete, t, i, p).riskFactors == TrainingRisk(t).factors + InjuryRisk(i).factors + PerformanceRisk(p).factors
    ensures Assess(athlete, t, i, p).riskLevel == DetermineRiskLevel(Assess(athlete, t, i, p).riskScore)
  {
  }

  /** A key is triggered by a concatenation exactly when it is triggered by one of the parts. */
  lemma TriggeredAppend(a: seq<Factor>, b: seq<Factor>, k: Key)
    ensures Triggered(a + b, k) <==> Triggered(a, k) || Triggered(b, k)
  {
    if Triggered(a + b, k) {
      var f :| f in a + b && Triggers(f, k);
      assert f in a || f in b;
    }
  }

  /** The factors the training scorer can emit. */
  predicate IsTrainingFactor(f: Factor) {
    f == InsufficientTraining || f == HighIntensity || f == ModerateIntensity || f == LoadSpike || f == LowFrequency || f == ConcentratedLoad
  }

  /** The factors the injury scorer can emit. */
  predicate IsInjuryFactor(f: Factor) {
    f.RecentInjuries? || f.SevereInjuries? || f == HighInjuryCount || f == ModerateInjuryHistory || f == VeryRecentInjury || f == RecentInjury
  }

  /** The factors the performance scorer can emit. */
  predicate IsPerformanceFactor(f: Factor) {
    f == LimitedPerformance || f == PerformanceDecline || f == BelowAverage || f == ModerateConcerns || f == MultipleFatigue || f == SomeFatigue || f == StalePerformance
  }

  /** Each sub-scorer emits only its own factors. */
  lemma TrainingOrigin(t: Option<TrainingLoad>)
    ensures forall f :: f in TrainingRisk(t).factors ==> IsTrainingFactor(f)
  {
  }

  lemma InjuryOrigin(i: Option<InjuryHistory>)
    ensures forall f :: f in InjuryRisk(i).factors ==> IsInjuryFactor(f)
  {
  }

  lemma PerformanceOrigin(p: Option<PerformanceTrend>)
    ensures forall f :: f in PerformanceRisk(p).factors ==> IsPerformanceFactor(f)
  {
  }

  /** The training factors trigger no key but the load-spike key. */
  lemma TrainingTriggersOnlySpike(t: Option<TrainingLoad>)
    ensures !Triggered(TrainingRisk(t).factors, RecentInjuryKey)
    ensures !Triggered(TrainingRisk(t).factors, DeclineKey)
    ensures !Triggered(TrainingRisk(t).factors, FatigueKey)
  {
    TrainingOrigin(t);
  }

  /** The injury factors trigger no key but the recent-injury key. */
  lemma InjuryTriggersOnlyRecentInjury(i: Option<InjuryHistory>)
    ensures !Triggered(InjuryRisk(i).factors, LoadSpikeKey)
    ensures !Triggered(InjuryRisk(i).factors, DeclineKey)
    ensures !Triggered(InjuryRisk(i).factors, FatigueKey)
  {
    InjuryOrigin(i);
  }

  /** The performance factors trigger neither the load-spike nor the recent-injury key. */
  lemma PerformanceTriggersOnlyDeclineAndFatigue(p: Option<PerformanceTrend>)
    ensures !Triggered(PerformanceRisk(p).factors, LoadSpikeKey)
    ensures !Triggered(PerformanceRisk(p).factors, RecentInjuryKey)
  {
    PerformanceOrigin(p);
  }

  /** The training factors trigger the load-spike key exactly when a spike is reported. */
  lemma SpikeTriggered(t: Option<TrainingLoad>)
    ensures Triggered(TrainingRisk(t).factors, LoadSpikeKey) <==> t.Some? && t.value.loadSpike
  {
    if t.Some? && t.value.loadSpike {
      assert LoadSpike in TrainingRisk(t).factors;
    }
  }

  /**
   * The injury factors trigger the recent-injury key exactly when there are
   * recent injuries or the last injury is under 30 days old.
   */
  lemma RecentInjuryTriggered(i: Option<InjuryHistory>)
    ensures Triggered(InjuryRisk(i).factors, RecentInjuryKey) <==>
      i.Some? && (i.value.recentInjuries > 0 || (i.value.daysSinceLastInjury.Some? && i.value.daysSinceLastInjury.value < 30.0))
  {
    if i.Some? && i.value.recentInjuries > 0 {
      assert RecentInjuries(i.value.recentInjuries) in InjuryRisk(i).factors;
    } else if i.Some? && i.value.daysSinceLastInjury.Some? && i.value.daysSinceLastInjury.value < 30.0 {
      assert VeryRecentInjury in InjuryRisk(i).factors;
    }
  }

  /** The performance factors trigger the decline key exactly when a decline is reported. */
  lemma DeclineTriggered(p: Option<PerformanceTrend>)
    ensures Triggered(PerformanceRisk(p).factors, DeclineKey) <==> p.Some? && p.value.recentDecline
  {
    if p.Some? && p.value.recentDecline {
      assert PerformanceDecline in PerformanceRisk(p).factors;
    }
  }

  /** The performance factors trigger the fatigue key exactly when there are more than one fatigue indicators. */
  lemma FatigueTriggered(p: Option<PerformanceTrend>)
    ensures Triggered(PerformanceRisk(p).factors, FatigueKey) <==> p.Some? && p.value.fatigueIndicators > 1
  {
    if p.Some? && p.value.fatigueIndicators > 3 {
      assert MultipleFatigue in PerformanceRisk(p).factors;
    } else if p.Some? && p.value.fatigueIndicators > 1 {
      assert SomeFatigue in PerformanceRisk(p).factors;
    }
  }

  /** A key is triggered by an assessment's factors exactly when one of the three sub-scorers triggers it. */
  lemma AssessTriggered(athlete: Record, t: Option<TrainingLoad>, i: Option<InjuryHistory>, p: Option<PerformanceTrend>, k: Key)
    ensures Triggered(Assess(athlete, t, i, p).riskFactors, k) <==>
      Triggered(TrainingRisk(t).factors, k) || Triggered(InjuryRisk(i).factors, k) || Triggered(PerformanceRisk(p).factors, k)
  {
    TriggeredAppend(TrainingRisk(t).factors, InjuryRisk(i).factors, k);
    TriggeredAppend(TrainingRisk(t).factors + InjuryRisk(i).factors, PerformanceRisk(p).factors, k);
  }

  /** Gradual-load advice is given exactly when the training signal reports a load spike. */
  lemma GradualLoadAdviceIffSpike(athlete: Record, t: Option<TrainingLoad>, i: Option<InjuryHistory>, p: Option<PerformanceTrend>)
    ensures GradualLoad in Assess(athlete, t, i, p).recommendations <==> t.Some? && t.value.loadSpike
  {
    var a := Assess(athlete, t, i, p);
    AdviceIffTriggered(a.riskLevel, a.riskFactors);
    AssessTriggered(athlete, t, i, p, LoadSpikeKey);
    SpikeTriggered(t);
    InjuryTriggersOnlyRecentInjury(i);
    PerformanceTriggersOnlyDeclineAndFatigue(p);
  }

  /**
   * Rehabilitation advice is given exactly when there are recent injuries or
   * the last injury is under 30 days old; 30 to 90 days does not trigger it.
   */
  lemma RehabAdviceIffRecentInjury(athlete: Record, t: Option<TrainingLoad>, i: Option<InjuryHistory>, p: Option<PerformanceTrend>)
    ensures InjuryRehab in Assess(athlete, t, i, p).recommendations <==>
      i.Some? && (i.value.recentInjuries > 0 || (i.value.daysSinceLastInjury.Some? && i.value.daysSinceLastInjury.value < 30.0))
  {
    var a := Assess(athlete, t, i, p);
    AdviceIffTriggered(a.riskLevel, a.riskFactors);
    AssessTriggered(athlete, t, i, p, RecentInjuryKey);
    TrainingTriggersOnlySpike(t);
    RecentInjuryTriggered(i);
    PerformanceTriggersOnlyDeclineAndFatigue(p);
  }

  /** The methodology review and the psychology referral are given exactly when performance is declining. */
  lemma DeclineAdviceIffDecline(athlete: Record, t: Option<TrainingLoad>, i: Option<InjuryHistory>, p: Option<PerformanceTrend>)
    ensures ReviewMethodology in Assess(athlete, t, i, p).recommendations <==> p.Some? && p.value.recentDecline
    ensures SportsPsychology in Assess(athlete, t, i, p).recommendations <==> p.Some? && p.value.recentDecline
  {
    var a := Assess(athlete, t, i, p);
    AdviceIffTriggered(a.riskLevel, a.riskFactors);
    AssessTriggered(athlete, t, i, p, DeclineKey);
    TrainingTriggersOnlySpike(t);
    InjuryTriggersOnlyRecentInjury(i);
    DeclineTriggered(p);
  }

  /** Sleep and nutrition advice is given exactly when there are more than one fatigue indicators. */
  lemma SleepAdviceIffFatigue(athlete: Record, t: Option<TrainingLoad>, i: Option<InjuryHistory>, p: Option<PerformanceTrend>)
    ensures SleepNutrition in Assess(athlete, t, i, p).recommendations <==> p.Some? && p.value.fatigueIndicators > 1
  {
    var a := Assess(athlete, t, i, p);
    AdviceIffTriggered(a.riskLevel, a.riskFactors);
    AssessTriggered(athlete, t, i, p, FatigueKey);
    TrainingTriggersOnlySpike(t);
    InjuryTriggersOnlyRecentInjury(i);
    FatigueTriggered(p);
  }

  /**
   * No training data, no injury data and a low-scoring, fatigued performance
   * record: 10 + 0 + 18 = 28, which is still the low tier.
   */
  lemma NoDataFatiguedAthleteIsLowTier(athlete: Record, days: Option<real>)
    requires days.None? || days.value <= 14.0
    ensures var a := Assess(athlete, None, None, Some(PerformanceTrend(false, 55.0, 4, days)));
      && a.trainingRisk == 10 && a.injuryRisk == 0 && a.performanceRisk == 18
      && a.riskScore == 28 && a.riskLevel == "low"
      && a.recommendations == [ContinueRegimen, RegularMonitoring, InjuryPrevention, SleepNutrition]
  {
    var p := Some(PerformanceTrend(false, 55.0, 4, days));
    TrainingTriggersOnlySpike(None);
    SpikeTriggered(None);
    InjuryTriggersOnlyRecentInjury(None);
    RecentInjuryTriggered(None);
    PerformanceTriggersOnlyDeclineAndFatigue(p);
    DeclineTriggered(p);
    FatigueTriggered(p);
    AssessTriggered(athlete, None, None, p, LoadSpikeKey);
    AssessTriggered(athlete, None, None, p, RecentInjuryKey);
    AssessTriggered(athlete, None, None, p, DeclineKey);
    AssessTriggered(athlete, None, None, p, FatigueKey);
    var a := Assess(athlete, None, None, p);
    assert a.riskLevel == "low";
    assert a.recommendations == [ContinueRegimen, RegularMonitoring, InjuryPrevention] + [SleepNutrition];
  }

  /** A heavy injury history is capped: 2 recent, 1 severe, 6 in total and 10 days ago give 50 points, scored 35. */
  lemma InjuryScoreIsCapped()
    ensures InjuryPoints(InjuryHistory(2, 1, 6, Some(10.0))) == 50
    ensures InjuryRisk(Some(InjuryHistory(2, 1, 6, Some(10.0)))).score == 35
  {
  }

  /** Intensity 9 with a load spike, 10 sessions and no recent load scores 15 + 20 = 35. */
  lemma SpikeAndIntensityExample()
    ensures TrainingRisk(Some(TrainingLoad(9.0, true, 10, 0.0, 100.0))) == SubScore(35, [HighIntensity, LoadSpike])
  {
  }
}
