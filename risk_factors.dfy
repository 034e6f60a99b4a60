/**
 * The risk-factor descriptions the three sub-scorers emit, the four
 * substrings the recommendation builder searches them for, and which
 * description holds which substring under the case-sensitive
 * `String.prototype.includes`.
 */
module RiskFactors {
  import opened Text

  /** One risk-factor description; the two injury counts are rendered into their text. */
  datatype Factor =
    | InsufficientTraining
    | HighIntensity
    | ModerateIntensity
    | LoadSpike
    | LowFrequency
    | ConcentratedLoad
    | RecentInjuries(count: nat)
    | SevereInjuries(count: nat)
    | HighInjuryCount
    | ModerateInjuryHistory
    | VeryRecentInjury
    | RecentInjury
    | LimitedPerformance
    | PerformanceDecline
    | BelowAverage
    | ModerateConcerns
    | MultipleFatigue
    | SomeFatigue
    | StalePerformance

  /** The text the source pushes onto `factors` for each rule. */
  function FactorText(f: Factor): string {
    match f
    case InsufficientTraining => "Insufficient training data"
    case HighIntensity => "High average training intensity"
    case ModerateIntensity => "Moderate training intensity"
    case LoadSpike => "Recent training load spike detected"
    case LowFrequency => "Low training frequency"
    case ConcentratedLoad => "Concentrated recent training load"
    case RecentInjuries(n) => NatToString(n) + " recent injury(ies) in last 6 months"
    case SevereInjuries(n) => NatToString(n) + " severe injury(ies) in history"
    case HighInjuryCount => "High total injury count"
    case ModerateInjuryHistory => "Moderate injury history"
    case VeryRecentInjury => "Very recent injury (within 30 days)"
    case RecentInjury => "Recent injury (within 90 days)"
    case LimitedPerformance => "Limited performance data"
    case PerformanceDecline => "Recent performance decline detected"
    case BelowAverage => "Below average performance scores"
    case ModerateConcerns => "Moderate performance concerns"
    case MultipleFatigue => "Multiple fatigue indicators detected"
    case SomeFatigue => "Some fatigue indicators present"
    case StalePerformance => "No recent performance data"
  }

  /** A substring the recommendation builder looks for. */
  datatype Key = LoadSpikeKey | RecentInjuryKey | DeclineKey | FatigueKey

  function KeyText(k: Key): string {
    match k
    case LoadSpikeKey => "load spike"
    case RecentInjuryKey => "recent injury"
    case DeclineKey => "performance decline"
    case FatigueKey => "fatigue"
  }

  /** `FactorText(f).includes(KeyText(k))` */
  predicate Matches(f: Factor, k: Key) {
    Contains(FactorText(f), KeyText(k))
  }

  /** Which factors each key picks out. */
  predicate Triggers(f: Factor, k: Key) {
    match k
    case LoadSpikeKey => f == LoadSpike
    case RecentInjuryKey => f.RecentInjuries? || f == VeryRecentInjury
    case DeclineKey => f == PerformanceDecline
    case FatigueKey => f == MultipleFatigue || f == SomeFatigue
  }

  /**
   * The substring search picks out exactly the factors in `Triggers`. In
   * particular "Recent injury (within 90 days)" does not hold "recent injury":
   * the match is case-sensitive.
   */
  lemma MatchesIffTriggers(f: Factor, k: Key)
    ensures Matches(f, k) <==> Triggers(f, k)
  {
    match k
    case LoadSpikeKey => LoadSpikeKeyMatches(f);
    case RecentInjuryKey => RecentInjuryKeyMatches(f);
    case DeclineKey => DeclineKeyMatches(f);
    case FatigueKey => FatigueKeyMatches(f);
  }

  /** Only the load-spike factor holds "load spike". */
  lemma LoadSpikeKeyMatches(f: Factor)
    ensures Matches(f, LoadSpikeKey) <==> f == LoadSpike
  {
    match f
    case InsufficientTraining => InsufficientTrainingLacksLoadSpike();
    case HighIntensity => HighIntensityLacksLoadSpike();
    case ModerateIntensity => ModerateIntensityLacksLoadSpike();
    case LoadSpike => LoadSpikeHoldsLoadSpike();
    case LowFrequency => LowFrequencyLacksLoadSpike();
    case ConcentratedLoad => ConcentratedLoadLacksLoadSpike();
    case RecentInjuries(n) => RecentInjuriesLacksLoadSpike(n);
    case SevereInjuries(n) => SevereInjuriesLacksLoadSpike(n);
    case HighInjuryCount => HighInjuryCountLacksLoadSpike();
    case ModerateInjuryHistory => ModerateInjuryHistoryLacksLoadSpike();
    case VeryRecentInjury => VeryRecentInjuryLacksLoadSpike();
    case RecentInjury => RecentInjuryLacksLoadSpike();
    case LimitedPerformance => LimitedPerformanceLacksLoadSpike();
    case PerformanceDecline => PerformanceDeclineLacksLoadSpike();
    case BelowAverage => BelowAverageLacksLoadSpike();
    case ModerateConcerns => ModerateConcernsLacksLoadSpike();
    case MultipleFatigue => MultipleFatigueLacksLoadSpike();
    case SomeFatigue => SomeFatigueLacksLoadSpike();
    case StalePerformance => StalePerformanceLacksLoadSpike();
  }

  /** Only the recent-injury count and the within-30-days factor hold "recent injury"; the capitalised within-90-days factor does not. */
  lemma RecentInjuryKeyMatches(f: Factor)
    ensures Matches(f, RecentInjuryKey) <==> f.RecentInjuries? || f == VeryRecentInjury
  {
    match f
    case InsufficientTraining => InsufficientTrainingLacksRecentInjury();
    case HighIntensity => HighIntensityLacksRecentInjury();
    case ModerateIntensity => ModerateIntensityLacksRecentInjury();
    case LoadSpike => LoadSpikeLacksRecentInjury();
    case LowFrequency => LowFrequencyLacksRecentInjury();
    case ConcentratedLoad => ConcentratedLoadLacksRecentInjury();
    case RecentInjuries(n) => RecentInjuriesHoldsRecentInjury(n);
    case SevereInjuries(n) => SevereInjuriesLacksRecentInjury(n);
    case HighInjuryCount => HighInjuryCountLacksRecentInjury();
    case ModerateInjuryHistory => ModerateInjuryHistoryLacksRecentInjury();
    case VeryRecentInjury => VeryRecentInjuryHoldsRecentInjury();
    case RecentInjury => RecentInjuryLacksRecentInjury();
    case LimitedPerformance => LimitedPerformanceLacksRecentInjury();
    case PerformanceDecline => PerformanceDeclineLacksRecentInjury();
    case BelowAverage => BelowAverageLacksRecentInjury();
    case ModerateConcerns => ModerateConcernsLacksRecentInjury();
    case MultipleFatigue => MultipleFatigueLacksRecentInjury();
    case SomeFatigue => SomeFatigueLacksRecentInjury();
    case StalePerformance => StalePerformanceLacksRecentInjury();
  }

  /** Only the decline factor holds "performance decline". */
  lemma DeclineKeyMatches(f: Factor)
    ensures Matches(f, DeclineKey) <==> f == PerformanceDecline
  {
    match f
    case InsufficientTraining => InsufficientTrainingLacksDecline();
    case HighIntensity => HighIntensityLacksDecline();
    case ModerateIntensity => ModerateIntensityLacksDecline();
    case LoadSpike => LoadSpikeLacksDecline();
    case LowFrequency => LowFrequencyLacksDecline();
    case ConcentratedLoad => ConcentratedLoadLacksDecline();
    case RecentInjuries(n) => RecentInjuriesLacksDecline(n);
    case SevereInjuries(n) => SevereInjuriesLacksDecline(n);
    case HighInjuryCount => HighInjuryCountLacksDecline();
    case ModerateInjuryHistory => ModerateInjuryHistoryLacksDecline();
    case VeryRecentInjury => VeryRecentInjuryLacksDecline();
    case RecentInjury => RecentInjuryLacksDecline();
    case LimitedPerformance => LimitedPerformanceLacksDecline();
    case PerformanceDecline => PerformanceDeclineHoldsDecline();
    case BelowAverage => BelowAverageLacksDecline();
    case ModerateConcerns => ModerateConcernsLacksDecline();
    case MultipleFatigue => MultipleFatigueLacksDecline();
    case SomeFatigue => SomeFatigueLacksDecline();
    case StalePerformance => StalePerformanceLacksDecline();
  }

  /** Only the two fatigue factors hold "fatigue". */
  lemma FatigueKeyMatches(f: Factor)
    ensures Matches(f, FatigueKey) <==> f == MultipleFatigue || f == SomeFatigue
  {
    match f
    case InsufficientTraining => InsufficientTrainingLacksFatigue();
    case HighIntensity => HighIntensityLacksFatigue();
    case ModerateIntensity => ModerateIntensityLacksFatigue();
    case LoadSpike => LoadSpikeLacksFatigue();
    case LowFrequency => LowFrequencyLacksFatigue();
    case ConcentratedLoad => ConcentratedLoadLacksFatigue();
    case RecentInjuries(n) => RecentInjuriesLacksFatigue(n);
    case SevereInjuries(n) => SevereInjuriesLacksFatigue(n);
    case HighInjuryCount => HighInjuryCountLacksFatigue();
    case ModerateInjuryHistory => ModerateInjuryHistoryLacksFatigue();
    case VeryRecentInjury => VeryRecentInjuryLacksFatigue();
    case RecentInjury => RecentInjuryLacksFatigue();
    case LimitedPerformance => LimitedPerformanceLacksFatigue();
    case PerformanceDecline => PerformanceDeclineLacksFatigue();
    case BelowAverage => BelowAverageLacksFatigue();
    case ModerateConcerns => ModerateConcernsLacksFatigue();
    case MultipleFatigue => MultipleFatigueHoldsFatigue();
    case SomeFatigue => SomeFatigueHoldsFatigue();
    case StalePerformance => StalePerformanceLacksFatigue();
  }

  // One lemma per (factor, key) pair; each exhibits the occurrence, or a
  // character of the key the text lacks, or the single candidate offset and
  // a mismatch there. The two counted texts start with digits, which no key
  // does, so only the literal rest of those texts matters.

  lemma InsufficientTrainingLacksLoadSpike()
    ensures !Matches(InsufficientTraining, LoadSpikeKey)
  {
    NotContainsByChar("Insufficient training data", "load spike", 0);
  }

  lemma InsufficientTrainingLacksRecentInjury()
    ensures !Matches(InsufficientTraining, RecentInjuryKey)
  {
    NotContainsByChar("Insufficient training data", "recent injury", 9);
  }

  lemma InsufficientTrainingLacksDecline()
    ensures !Matches(InsufficientTraining, DeclineKey)
  {
    NotContainsByChar("Insufficient training data", "performance decline", 0);
  }

  lemma InsufficientTrainingLacksFatigue()
    ensures !Matches(InsufficientTraining, FatigueKey)
  {
    NotContainsByAnchor("Insufficient training data", "fatigue", 4, 20, 0);
  }

  lemma HighIntensityLacksLoadSpike()
    ensures !Matches(HighIntensity, LoadSpikeKey)
  {
    NotContainsByChar("High average training intensity", "load spike", 0);
  }

  lemma HighIntensityLacksRecentInjury()
    ensures !Matches(HighIntensity, RecentInjuryKey)
  {
    NotContainsByChar("High average training intensity", "recent injury", 2);
  }

  lemma HighIntensityLacksDecline()
    ensures !Matches(HighIntensity, DeclineKey)
  {
    NotContainsByChar("High average training intensity", "performance decline", 0);
  }

  lemma HighIntensityLacksFatigue()
    ensures !Matches(HighIntensity, FatigueKey)
  {
    NotContainsByChar("High average training intensity", "fatigue", 0);
  }

  lemma ModerateIntensityLacksLoadSpike()
    ensures !Matches(ModerateIntensity, LoadSpikeKey)
  {
    NotContainsByChar("Moderate training intensity", "load spike", 0);
  }

  lemma ModerateIntensityLacksRecentInjury()
    ensures !Matches(ModerateIntensity, RecentInjuryKey)
  {
    NotContainsByChar("Moderate training intensity", "recent injury", 2);
  }

  lemma ModerateIntensityLacksDecline()
    ensures !Matches(ModerateIntensity, DeclineKey)
  {
    NotContainsByChar("Moderate training intensity", "performance decline", 0);
  }

  lemma ModerateIntensityLacksFatigue()
    ensures !Matches(ModerateIntensity, FatigueKey)
  {
    NotContainsByChar("Moderate training intensity", "fatigue", 0);
  }

  lemma LoadSpikeHoldsLoadSpike()
    ensures Matches(LoadSpike, LoadSpikeKey)
  {
    ContainsAt("Recent training load spike detected", "load spike", 16);
  }

  lemma LoadSpikeLacksRecentInjury()
    ensures !Matches(LoadSpike, RecentInjuryKey)
  {
    NotContainsByChar("Recent training load spike detected", "recent injury", 9);
  }

  lemma LoadSpikeLacksDecline()
    ensures !Matches(LoadSpike, DeclineKey)
  {
    NotContainsByChar("Recent training load spike detected", "performance decline", 3);
  }

  lemma LoadSpikeLacksFatigue()
    ensures !Matches(LoadSpike, FatigueKey)
  {
    NotContainsByChar("Recent training load spike detected", "fatigue", 0);
  }

  lemma LowFrequencyLacksLoadSpike()
    ensures !Matches(LowFrequency, LoadSpikeKey)
  {
    NotContainsByChar("Low training frequency", "load spike", 0);
  }

  lemma LowFrequencyLacksRecentInjury()
    ensures !Matches(LowFrequency, RecentInjuryKey)
  {
    NotContainsByChar("Low training frequency", "recent injury", 9);
  }

  lemma LowFrequencyLacksDecline()
    ensures !Matches(LowFrequency, DeclineKey)
  {
    NotContainsByChar("Low training frequency", "performance decline", 0);
  }

  lemma LowFrequencyLacksFatigue()
    ensures !Matches(LowFrequency, FatigueKey)
  {
    NotContainsByAnchor("Low training frequency", "fatigue", 0, 13, 1);
  }

  lemma ConcentratedLoadLacksLoadSpike()
    ensures !Matches(ConcentratedLoad, LoadSpikeKey)
  {
    NotContainsByChar("Concentrated recent training load", "load spike", 5);
  }

  lemma ConcentratedLoadLacksRecentInjury()
    ensures !Matches(ConcentratedLoad, RecentInjuryKey)
  {
    NotContainsByChar("Concentrated recent training load", "recent injury", 9);
  }

  lemma ConcentratedLoadLacksDecline()
    ensures !Matches(ConcentratedLoad, DeclineKey)
  {
    NotContainsByChar("Concentrated recent training load", "performance decline", 0);
  }

  lemma ConcentratedLoadLacksFatigue()
    ensures !Matches(ConcentratedLoad, FatigueKey)
  {
    NotContainsByChar("Concentrated recent training load", "fatigue", 0);
  }

  lemma RecentInjuriesLacksLoadSpike(n: nat)
    ensures !Matches(RecentInjuries(n), LoadSpikeKey)
  {
    var rest := " recent injury(ies) in last 6 months";
    NotContainsByChar(rest, "load spike", 3);
    ContainsAfterDigits(NatToString(n), rest, "load spike");
  }

  lemma RecentInjuriesHoldsRecentInjury(n: nat)
    ensures Matches(RecentInjuries(n), RecentInjuryKey)
  {
    var rest := " recent injury(ies) in last 6 months";
    ContainsAt(rest, "recent injury", 1);
    ContainsAfterDigits(NatToString(n), rest, "recent injury");
  }

  lemma RecentInjuriesLacksDecline(n: nat)
    ensures !Matches(RecentInjuries(n), DeclineKey)
  {
    var rest := " recent injury(ies) in last 6 months";
    NotContainsByChar(rest, "performance decline", 0);
    ContainsAfterDigits(NatToString(n), rest, "performance decline");
  }

  lemma RecentInjuriesLacksFatigue(n: nat)
    ensures !Matches(RecentInjuries(n), FatigueKey)
  {
    var rest := " recent injury(ies) in last 6 months";
    NotContainsByChar(rest, "fatigue", 0);
    ContainsAfterDigits(NatToString(n), rest, "fatigue");
  }

  lemma SevereInjuriesLacksLoadSpike(n: nat)
    ensures !Matches(SevereInjuries(n), LoadSpikeKey)
  {
    var rest := " severe injury(ies) in history";
    NotContainsByChar(rest, "load spike", 0);
    ContainsAfterDigits(NatToString(n), rest, "load spike");
  }

  lemma SevereInjuriesLacksRecentInjury(n: nat)
    ensures !Matches(SevereInjuries(n), RecentInjuryKey)
  {
    var rest := " severe injury(ies) in history";
    NotContainsByChar(rest, "recent injury", 2);
    ContainsAfterDigits(NatToString(n), rest, "recent injury");
  }

  lemma SevereInjuriesLacksDecline(n: nat)
    ensures !Matches(SevereInjuries(n), DeclineKey)
  {
    var rest := " severe injury(ies) in history";
    NotContainsByChar(rest, "performance decline", 0);
    ContainsAfterDigits(NatToString(n), rest, "performance decline");
  }

  lemma SevereInjuriesLacksFatigue(n: nat)
    ensures !Matches(SevereInjuries(n), FatigueKey)
  {
    var rest := " severe injury(ies) in history";
    NotContainsByChar(rest, "fatigue", 0);
    ContainsAfterDigits(NatToString(n), rest, "fatigue");
  }

  lemma HighInjuryCountLacksLoadSpike()
    ensures !Matches(HighInjuryCount, LoadSpikeKey)
  {
    NotContainsByChar("High total injury count", "load spike", 3);
  }

  lemma HighInjuryCountLacksRecentInjury()
    ensures !Matches(HighInjuryCount, RecentInjuryKey)
  {
    NotContainsByChar("High total injury count", "recent injury", 1);
  }

  lemma HighInjuryCountLacksDecline()
    ensures !Matches(HighInjuryCount, DeclineKey)
  {
    NotContainsByChar("High total injury count", "performance decline", 0);
  }

  lemma HighInjuryCountLacksFatigue()
    ensures !Matches(HighInjuryCount, FatigueKey)
  {
    NotContainsByChar("High total injury count", "fatigue", 0);
  }

  lemma ModerateInjuryHistoryLacksLoadSpike()
    ensures !Matches(ModerateInjuryHistory, LoadSpikeKey)
  {
    NotContainsByChar("Moderate injury history", "load spike", 0);
  }

  lemma ModerateInjuryHistoryLacksRecentInjury()
    ensures !Matches(ModerateInjuryHistory, RecentInjuryKey)
  {
    NotContainsByChar("Moderate injury history", "recent injury", 2);
  }

  lemma ModerateInjuryHistoryLacksDecline()
    ensures !Matches(ModerateInjuryHistory, DeclineKey)
  {
    NotContainsByChar("Moderate injury history", "performance decline", 0);
  }

  lemma ModerateInjuryHistoryLacksFatigue()
    ensures !Matches(ModerateInjuryHistory, FatigueKey)
  {
    NotContainsByChar("Moderate injury history", "fatigue", 0);
  }

  lemma VeryRecentInjuryLacksLoadSpike()
    ensures !Matches(VeryRecentInjury, LoadSpikeKey)
  {
    NotContainsByChar("Very recent injury (within 30 days)", "load spike", 0);
  }

  lemma VeryRecentInjuryHoldsRecentInjury()
    ensures Matches(VeryRecentInjury, RecentInjuryKey)
  {
    ContainsAt("Very recent injury (within 30 days)", "recent injury", 5);
  }

  lemma VeryRecentInjuryLacksDecline()
    ensures !Matches(VeryRecentInjury, DeclineKey)
  {
    NotContainsByChar("Very recent injury (within 30 days)", "performance decline", 0);
  }

  lemma VeryRecentInjuryLacksFatigue()
    ensures !Matches(VeryRecentInjury, FatigueKey)
  {
    NotContainsByChar("Very recent injury (within 30 days)", "fatigue", 0);
  }

  lemma RecentInjuryLacksLoadSpike()
    ensures !Matches(RecentInjury, LoadSpikeKey)
  {
    NotContainsByChar("Recent injury (within 90 days)", "load spike", 0);
  }

  lemma RecentInjuryLacksRecentInjury()
    ensures !Matches(RecentInjury, RecentInjuryKey)
  {
    NotContainsByAnchor("Recent injury (within 90 days)", "recent injury", 0, 11, 1);
  }

  lemma RecentInjuryLacksDecline()
    ensures !Matches(RecentInjury, DeclineKey)
  {
    NotContainsByChar("Recent injury (within 90 days)", "performance decline", 0);
  }

  lemma RecentInjuryLacksFatigue()
    ensures !Matches(RecentInjury, FatigueKey)
  {
    NotContainsByChar("Recent injury (within 90 days)", "fatigue", 0);
  }

  lemma LimitedPerformanceLacksLoadSpike()
    ensures !Matches(LimitedPerformance, LoadSpikeKey)
  {
    NotContainsByChar("Limited performance data", "load spike", 0);
  }

  lemma LimitedPerformanceLacksRecentInjury()
    ensures !Matches(LimitedPerformance, RecentInjuryKey)
  {
    NotContainsByChar("Limited performance data", "recent injury", 9);
  }

  lemma LimitedPerformanceLacksDecline()
    ensures !Matches(LimitedPerformance, DeclineKey)
  {
    NotContainsByChar("Limited performance data", "performance decline", 15);
  }

  lemma LimitedPerformanceLacksFatigue()
    ensures !Matches(LimitedPerformance, FatigueKey)
  {
    NotContainsByChar("Limited performance data", "fatigue", 4);
  }

  lemma PerformanceDeclineLacksLoadSpike()
    ensures !Matches(PerformanceDecline, LoadSpikeKey)
  {
    NotContainsByChar("Recent performance decline detected", "load spike", 5);
  }

  lemma PerformanceDeclineLacksRecentInjury()
    ensures !Matches(PerformanceDecline, RecentInjuryKey)
  {
    NotContainsByChar("Recent performance decline detected", "recent injury", 9);
  }

  lemma PerformanceDeclineHoldsDecline()
    ensures Matches(PerformanceDecline, DeclineKey)
  {
    ContainsAt("Recent performance decline detected", "performance decline", 7);
  }

  lemma PerformanceDeclineLacksFatigue()
    ensures !Matches(PerformanceDecline, FatigueKey)
  {
    NotContainsByChar("Recent performance decline detected", "fatigue", 4);
  }

  lemma BelowAverageLacksLoadSpike()
    ensures !Matches(BelowAverage, LoadSpikeKey)
  {
    NotContainsByChar("Below average performance scores", "load spike", 3);
  }

  lemma BelowAverageLacksRecentInjury()
    ensures !Matches(BelowAverage, RecentInjuryKey)
  {
    NotContainsByChar("Below average performance scores", "recent injury", 5);
  }

  lemma BelowAverageLacksDecline()
    ensures !Matches(BelowAverage, DeclineKey)
  {
    NotContainsByChar("Below average performance scores", "performance decline", 12);
  }

  lemma BelowAverageLacksFatigue()
    ensures !Matches(BelowAverage, FatigueKey)
  {
    NotContainsByChar("Below average performance scores", "fatigue", 2);
  }

  lemma ModerateConcernsLacksLoadSpike()
    ensures !Matches(ModerateConcerns, LoadSpikeKey)
  {
    NotContainsByChar("Moderate performance concerns", "load spike", 0);
  }

  lemma ModerateConcernsLacksRecentInjury()
    ensures !Matches(ModerateConcerns, RecentInjuryKey)
  {
    NotContainsByChar("Moderate performance concerns", "recent injury", 7);
  }

  lemma ModerateConcernsLacksDecline()
    ensures !Matches(ModerateConcerns, DeclineKey)
  {
    NotContainsByChar("Moderate performance concerns", "performance decline", 15);
  }

  lemma ModerateConcernsLacksFatigue()
    ensures !Matches(ModerateConcerns, FatigueKey)
  {
    NotContainsByChar("Moderate performance concerns", "fatigue", 3);
  }

  lemma MultipleFatigueLacksLoadSpike()
    ensures !Matches(MultipleFatigue, LoadSpikeKey)
  {
    NotContainsByChar("Multiple fatigue indicators detected", "load spike", 8);
  }

  lemma MultipleFatigueLacksRecentInjury()
    ensures !Matches(MultipleFatigue, RecentInjuryKey)
  {
    NotContainsByChar("Multiple fatigue indicators detected", "recent injury", 9);
  }

  lemma MultipleFatigueLacksDecline()
    ensures !Matches(MultipleFatigue, DeclineKey)
  {
    NotContainsByChar("Multiple fatigue indicators detected", "performance decline", 6);
  }

  lemma MultipleFatigueHoldsFatigue()
    ensures Matches(MultipleFatigue, FatigueKey)
  {
    ContainsAt("Multiple fatigue indicators detected", "fatigue", 9);
  }

  lemma SomeFatigueLacksLoadSpike()
    ensures !Matches(SomeFatigue, LoadSpikeKey)
  {
    NotContainsByChar("Some fatigue indicators present", "load spike", 0);
  }

  lemma SomeFatigueLacksRecentInjury()
    ensures !Matches(SomeFatigue, RecentInjuryKey)
  {
    NotContainsByChar("Some fatigue indicators present", "recent injury", 9);
  }

  lemma SomeFatigueLacksDecline()
    ensures !Matches(SomeFatigue, DeclineKey)
  {
    NotContainsByChar("Some fatigue indicators present", "performance decline", 15);
  }

  lemma SomeFatigueHoldsFatigue()
    ensures Matches(SomeFatigue, FatigueKey)
  {
    ContainsAt("Some fatigue indicators present", "fatigue", 5);
  }

  lemma StalePerformanceLacksLoadSpike()
    ensures !Matches(StalePerformance, LoadSpikeKey)
  {
    NotContainsByChar("No recent performance data", "load spike", 0);
  }

  lemma StalePerformanceLacksRecentInjury()
    ensures !Matches(StalePerformance, RecentInjuryKey)
  {
    NotContainsByChar("No recent performance data", "recent injury", 7);
  }

  lemma StalePerformanceLacksDecline()
    ensures !Matches(StalePerformance, DeclineKey)
  {
    NotContainsByChar("No recent performance data", "performance decline", 15);
  }

  lemma StalePerformanceLacksFatigue()
    ensures !Matches(StalePerformance, FatigueKey)
  {
    NotContainsByChar("No recent performance data", "fatigue", 3);
  }
}
