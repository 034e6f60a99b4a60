/**
 * The health-record form: `validateForm` with its injury-status rule, and
 * the error clearing of `handleInputChange` (which is `Forms.InputChanged`
 * over the input names below). `new Date(s)` for the next check-up is the
 * `parseDate` parameter (None for an invalid date) and `new Date()` is `now`,
 * both in milliseconds.
 */
module HealthForm {
  import opened Text
  import opened Forms

  const AthleteRequired := "Athlete selection is required"
  const StatusRequired := "Status is required"
  const ConditionRequired := "Condition description is required"
  const InjuryTypeRequired := "Injury type is required for injury status"
  const SeverityRequired := "Severity is required for injury status"
  const BodyPartRequired := "Body part is required for injury status"
  const TreatmentRequired := "Treatment plan is required for injuries"
  const RecoveryRequired := "Recovery timeline is required for injuries"
  const CheckupInPast := "Next checkup must be in the future"

  /** The `name` attributes of the form's inputs. */
  datatype Input =
    | AthleteId | Status | Condition | Notes | InjuryType | Severity
    | BodyPart | TreatmentPlan | RecoveryTimeline | NextCheckup

  type Form = map<Input, string>
  type Errors = map<Input, string>

  /** The inputs the form state always holds. */
  predicate IsHealthForm(f: Form) {
    && AthleteId in f && Status in f && Condition in f && Notes in f && InjuryType in f
    && Severity in f && BodyPart in f && TreatmentPlan in f && RecoveryTimeline in f && NextCheckup in f
  }

  /** `status.includes("Injury") || status === "Recovering"` */
  predicate IsInjuryStatus(status: string) {
    Contains(status, "Injury") || status == "Recovering"
  }

  /** Of the five statuses the form offers, the two injuries and "Recovering" are injury statuses; the other two are not. */
  lemma OfferedStatuses()
    ensures IsInjuryStatus("Minor Injury") && IsInjuryStatus("Major Injury") && IsInjuryStatus("Recovering")
    ensures !IsInjuryStatus("Healthy") && !IsInjuryStatus("Under Observation")
  {
    ContainsAt("Minor Injury", "Injury", 6);
    ContainsAt("Major Injury", "Injury", 6);
    NotContainsByChar("Healthy", "Injury", 0);
    NotContainsByChar("Under Observation", "Injury", 0);
  }

  /** `new Date(s) <= new Date()`: an invalid date compares false, so it is never "in the past". */
  predicate NotInFuture(s: string, parseDate: string -> Option<int>, now: int) {
    parseDate(s).Some? && parseDate(s).value <= now
  }

  /** The outcome of each check `validateForm` makes. */
  datatype Checks = Checks(
    athleteMissing: bool, statusMissing: bool, conditionBlank: bool, injury: bool,
    typeMissing: bool, severityMissing: bool, partMissing: bool, treatmentBlank: bool,
    recoveryBlank: bool, checkupPast: bool)

  /** The checks `validateForm` makes on a form. */
  function ChecksOf(f: Form, parseDate: string -> Option<int>, now: int): Checks
    requires IsHealthForm(f)
  {
    Checks(Empty(f[AthleteId]), Empty(f[Status]), IsBlank(f[Condition]), IsInjuryStatus(f[Status]),
      Empty(f[InjuryType]), Empty(f[Severity]), Empty(f[BodyPart]), IsBlank(f[TreatmentPlan]),
      IsBlank(f[RecoveryTimeline]), !Empty(f[NextCheckup]) && NotInFuture(f[NextCheckup], parseDate, now))
  }

  /** The messages for the three inputs every record needs. */
  function BaseErrors(c: Checks): Errors {
    var e0: Errors := map[];
    var e1 := if c.athleteMissing then e0[AthleteId := AthleteRequired] else e0;
    var e2 := if c.statusMissing then e1[Status := StatusRequired] else e1;
    if c.conditionBlank then e2[Condition := ConditionRequired] else e2
  }

  /** The messages the injury-status branch adds to `e`. */
  function InjuryErrors(e: Errors, c: Checks): Errors {
    if !c.injury then e
    else
      var e1 := if c.typeMissing then e[InjuryType := InjuryTypeRequired] else e;
      var e2 := if c.severityMissing then e1[Severity := SeverityRequired] else e1;
      var e3 := if c.partMissing then e2[BodyPart := BodyPartRequired] else e2;
      var e4 := if c.treatmentBlank then e3[TreatmentPlan := TreatmentRequired] else e3;
      if c.recoveryBlank then e4[RecoveryTimeline := RecoveryRequired] else e4
  }

  /** The error object `validateForm` builds from the outcome of each check. */
  function ErrorsFor(c: Checks): Errors
  {
    var e := InjuryErrors(BaseErrors(c), c);
    if c.checkupPast then e[NextCheckup := CheckupInPast] else e
  }

  /** The error object for a form, the injury inputs checked only under an injury status. */
  function HealthErrors(f: Form, parseDate: string -> Option<int>, now: int): Errors
    requires IsHealthForm(f)
  {
    ErrorsFor(ChecksOf(f, parseDate, now))
  }

  /** Which inputs `BaseErrors` flags. */
  lemma BaseErrorsRules(c: Checks)
    ensures var e := BaseErrors(c);
      && (AthleteId in e <==> c.athleteMissing) && (Status in e <==> c.statusMissing)
      && (Condition in e <==> c.conditionBlank)
      && Notes !in e && InjuryType !in e && Severity !in e && BodyPart !in e
      && TreatmentPlan !in e && RecoveryTimeline !in e && NextCheckup !in e
  {
  }

  /** `InjuryErrors` flags the failing injury inputs under an injury status and touches nothing else. */
  lemma InjuryErrorsRules(e: Errors, c: Checks)
    ensures var r := InjuryErrors(e, c);
      && (InjuryType in r <==> InjuryType in e || (c.injury && c.typeMissing))
      && (Severity in r <==> Severity in e || (c.injury && c.severityMissing))
      && (BodyPart in r <==> BodyPart in e || (c.injury && c.partMissing))
      && (TreatmentPlan in r <==> TreatmentPlan in e || (c.injury && c.treatmentBlank))
      && (RecoveryTimeline in r <==> RecoveryTimeline in e || (c.injury && c.recoveryBlank))
      && (AthleteId in r <==> AthleteId in e) && (Status in r <==> Status in e)
      && (Condition in r <==> Condition in e) && (Notes in r <==> Notes in e)
      && (NextCheckup in r <==> NextCheckup in e)
  {
  }

  /** Which inputs `ErrorsFor` flags. */
  lemma ErrorsForRules(c: Checks)
    ensures var e := ErrorsFor(c);
      && (AthleteId in e <==> c.athleteMissing) && (Status in e <==> c.statusMissing)
      && (Condition in e <==> c.conditionBlank) && Notes !in e
      && (InjuryType in e <==> c.injury && c.typeMissing) && (Severity in e <==> c.injury && c.severityMissing)
      && (BodyPart in e <==> c.injury && c.partMissing) && (TreatmentPlan in e <==> c.injury && c.treatmentBlank)
      && (RecoveryTimeline in e <==> c.injury && c.recoveryBlank) && (NextCheckup in e <==> c.checkupPast)
  {
    BaseErrorsRules(c);
    InjuryErrorsRules(BaseErrors(c), c);
  }

  /**
   * The rules: athlete and status are required and the condition must be
   * non-blank; under an injury status the injury type, severity and body part
   * are required and the treatment plan and recovery timeline must be
   * non-blank; a next check-up that is given must not be at or before now;
   * the notes are never checked.
   */
  lemma HealthErrorRules(f: Form, parseDate: string -> Option<int>, now: int)
    requires IsHealthForm(f)
    ensures AthleteId in HealthErrors(f, parseDate, now) <==> Empty(f[AthleteId])
    ensures Status in HealthErrors(f, parseDate, now) <==> Empty(f[Status])
    ensures Condition in HealthErrors(f, parseDate, now) <==> IsBlank(f[Condition])
    ensures InjuryType in HealthErrors(f, parseDate, now) <==> IsInjuryStatus(f[Status]) && Empty(f[InjuryType])
    ensures Severity in HealthErrors(f, parseDate, now) <==> IsInjuryStatus(f[Status]) && Empty(f[Severity])
    ensures BodyPart in HealthErrors(f, parseDate, now) <==> IsInjuryStatus(f[Status]) && Empty(f[BodyPart])
    ensures TreatmentPlan in HealthErrors(f, parseDate, now) <==> IsInjuryStatus(f[Status]) && IsBlank(f[TreatmentPlan])
    ensures RecoveryTimeline in HealthErrors(f, parseDate, now) <==> IsInjuryStatus(f[Status]) && IsBlank(f[RecoveryTimeline])
    ensures NextCheckup in HealthErrors(f, parseDate, now) <==>
      !Empty(f[NextCheckup]) && NotInFuture(f[NextCheckup], parseDate, now)
    ensures Notes !in HealthErrors(f, parseDate, now)
  {
    ErrorsForRules(ChecksOf(f, parseDate, now));
  }

  /** "Healthy" and "Under Observation" never produce an error on the injury inputs, whatever they hold. */
  lemma NonInjuryStatusIgnoresInjuryInputs(f: Form, parseDate: string -> Option<int>, now: int)
    requires IsHealthForm(f) && (f[Status] == "Healthy" || f[Status] == "Under Observation")
    ensures InjuryType !in HealthErrors(f, parseDate, now) && Severity !in HealthErrors(f, parseDate, now)
    ensures BodyPart !in HealthErrors(f, parseDate, now) && TreatmentPlan !in HealthErrors(f, parseDate, now)
    ensures RecoveryTimeline !in HealthErrors(f, parseDate, now)
  {
    OfferedStatuses();
    HealthErrorRules(f, parseDate, now);
  }

  /** `validateForm`: runs the checks, records a message per failing input, and reports whether none failed. */
  method ValidateHealthForm(f: Form, parseDate: string -> Option<int>, now: int) returns (errors: Errors, valid: bool)
    requires IsHealthForm(f)
    ensures errors == HealthErrors(f, parseDate, now)
    ensures valid <==> NoErrors(errors)
  {
    var athleteMissing, statusMissing, conditionBlank := Empty(f[AthleteId]), Empty(f[Status]), IsBlank(f[Condition]);
    var injury := IsInjuryStatus(f[Status]);
    var typeMissing, severityMissing, partMissing := Empty(f[InjuryType]), Empty(f[Severity]), Empty(f[BodyPart]);
    var treatmentBlank, recoveryBlank := IsBlank(f[TreatmentPlan]), IsBlank(f[RecoveryTimeline]);
    var checkupPast := !Empty(f[NextCheckup]) && NotInFuture(f[NextCheckup], parseDate, now);
    errors := RecordErrors(Checks(athleteMissing, statusMissing, conditionBlank, injury, typeMissing,
      severityMissing, partMissing, treatmentBlank, recoveryBlank, checkupPast));
    valid := |errors| == 0;
  }

  /** Fills `newErrors` input by input, the injury inputs inside the injury-status branch. */
  method RecordErrors(c: Checks) returns (errors: Errors)
    ensures errors == ErrorsFor(c)
  {
    errors := map[];
    if c.athleteMissing {
      errors := errors[AthleteId := AthleteRequired];
    }
    if c.statusMissing {
      errors := errors[Status := StatusRequired];
    }
    if c.conditionBlank {
      errors := errors[Condition := ConditionRequired];
    }
    assert errors == BaseErrors(c);
    if c.injury {
      errors := RecordInjuryErrors(errors, c);
    }
    if c.checkupPast {
      errors := errors[NextCheckup := CheckupInPast];
    }
  }

  /** The injury-status branch of `validateForm`. */
  method RecordInjuryErrors(e: Errors, c: Checks) returns (errors: Errors)
    requires c.injury
    ensures errors == InjuryErrors(e, c)
  {
    errors := e;
    if c.typeMissing {
      errors := errors[InjuryType := InjuryTypeRequired];
    }
    if c.severityMissing {
      errors := errors[Severity := SeverityRequired];
    }
    if c.partMissing {
      errors := errors[BodyPart := BodyPartRequired];
    }
    if c.treatmentBlank {
      errors := errors[TreatmentPlan := TreatmentRequired];
    }
    if c.recoveryBlank {
      errors := errors[RecoveryTimeline := RecoveryRequired];
    }
  }
}
