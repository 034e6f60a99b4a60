# Athlete manager: risk engine, stores, forms and list views

This project models the core of an athlete-management web app in Dafny and
proves properties of that model. The core has five parts:

- **The injury-risk engine.** Three sub-scorers each turn a summary of one
  athlete's training load, injury history or performance trend into a capped
  score and a list of risk-factor descriptions. A composite adds the three
  scores and maps the total to a tier: high, medium or low. A recommendation
  builder starts from the tier's base advice and appends extra advice when a
  factor description contains certain substrings.
- **The four in-memory stores.** These hold the athletes, the health records,
  the performance records and the training sessions. Each keeps an array
  field that `create` pushes onto, `update` overwrites at an index and
  `delete` splices. A new `Id` is the largest `Id` plus one.
- **The three forms.** These are the athlete form, the health-record form
  (whose injury fields are required only under an injury status) and the
  training-session form. Each has a validator that fills an error object input
  by input, the payload it hands to a store, and the clearing of an input's
  message when the user types into it.
- **The athletes page.** It filters the roster by search term, position and
  age range. It applies list updates after a delete, add or edit, and builds
  the distinct positions offered in the position filter.
- **The risk and training pages.** The risk page filters assessments, sorts
  them by score (highest first), replaces one refreshed assessment, counts the
  tiers and maps each tier to a badge, icon and colour. The training page keeps
  the checkbox selection, builds the session payload, lists the five upcoming
  sessions and maps a session type to a colour.

Each source file becomes one Dafny module:

| module | what it models |
|---|---|
| `Text` | the string built-ins: `trim`, `toLowerCase`, `includes`, `parseInt`, `Number`, `split` |
| `Records`, `Seqs` | JavaScript objects as `map<string, Value>`, shared table operations, filter, sort and dedup |
| `RiskFactors`, `RiskScoring` | `riskAssessmentService.js` |
| `AthleteStore`, `HealthStore`, `PerformanceStore`, `TrainingStore` | the four services, each a `class` with a `seq<Record>` field |
| `Forms`, `AthleteForm`, `HealthForm` | `AthleteModal.jsx`, `HealthModal.jsx` and their shared input handler |
| `AthletesPage`, `RiskPage`, `TrainingPage` | `Athletes.jsx`, `RiskAssessment.jsx`, `Training.jsx` |

Code that accumulates step by step is written as methods:

- the sub-scorers' `score +=` and `push`;
- the validators filling `newErrors`;
- the filter effects reassigning `filtered`;
- the stores mutating their array.

Each such method is proved equal to a specification function, and the
properties are proved about that function.

## Model

| member | source | states |
|---|---|---|
| RiskScoring.TrainingRisk | src/services/api/riskAssessmentService.js:45-81 | the training sub-score lies in 0..40; with data, it is positive exactly when some factor was reported |
| RiskScoring.CalculateTrainingRisk | src/services/api/riskAssessmentService.js:45-81 | empty training data gives exactly 10 with the single factor "Insufficient training data"; otherwise the `+=`/`push` sequence yields the rule table's capped sum and factor list |
| RiskScoring.InjuryRisk | src/services/api/riskAssessmentService.js:83-125 | the injury sub-score lies in 0..35 and is positive exactly when some factor was reported |
| RiskScoring.CalculateInjuryRisk | src/services/api/riskAssessmentService.js:83-125 | empty injury data gives 0 with no factors; otherwise the accumulated score and factors equal the rule table's |
| RiskScoring.PerformanceRisk | src/services/api/riskAssessmentService.js:127-169 | the performance sub-score lies in 0..25; with data, it is positive exactly when some factor was reported |
| RiskScoring.CalculatePerformanceRisk | src/services/api/riskAssessmentService.js:127-169 | empty performance data gives 5 with "Limited performance data"; otherwise the accumulated score and factors equal the rule table's |
| RiskScoring.InjuryScoreIsCapped | src/services/api/riskAssessmentService.js:91-124 | a history whose increments add up to 50 is reported as 35 |
| RiskScoring.SpikeAndIntensityExample | src/services/api/riskAssessmentService.js:53-80 | intensity 9 with a load spike scores 15 + 20, with the two factors in rule order |
| RiskScoring.DetermineRiskLevel | src/services/api/riskAssessmentService.js:171-175 | high iff the score is at least 60, medium iff it is in 30..59, low iff it is below 30 |
| RiskScoring.RiskLevelMonotone | src/services/api/riskAssessmentService.js:171-175 | a higher score never gives a lower tier |
| RiskScoring.RiskLevelBoundaries | src/services/api/riskAssessmentService.js:171-175 | 29 is low, 30 medium, 59 medium, 60 high |
| RiskScoring.RiskLevelColor | src/services/api/riskAssessmentService.js:223-230 | the colour is "secondary" exactly for a level that is not one of the three tiers |
| RiskScoring.RiskLevelText | src/services/api/riskAssessmentService.js:232-239 | the label is "Unknown" exactly for a level that is not one of the three tiers |
| RiskScoring.TiersAreLabelled | src/services/api/riskAssessmentService.js:171-239 | every tier the engine produces has a real colour and label, and distinct tiers get distinct colours |
| RiskFactors.MatchesIffTriggers | src/services/api/riskAssessmentService.js:203-218 | the case-sensitive substring search picks out exactly: the load-spike factor; the recent-injury count and "Very recent injury"; the decline factor; the two fatigue factors |
| RiskFactors.LoadSpikeKeyMatches | src/services/api/riskAssessmentService.js:203 | only the load-spike description contains "load spike" |
| RiskFactors.RecentInjuryKeyMatches | src/services/api/riskAssessmentService.js:207 | only the recent-injury count and "Very recent injury (within 30 days)" contain "recent injury" |
| RiskFactors.DeclineKeyMatches | src/services/api/riskAssessmentService.js:211 | only the decline description contains "performance decline" |
| RiskFactors.FatigueKeyMatches | src/services/api/riskAssessmentService.js:216 | only the two fatigue descriptions contain "fatigue" |
| RiskScoring.TriggeredIffSomeMatch | src/services/api/riskAssessmentService.js:203-216 | `factors.some(f => f.includes(key))` holds iff some factor's text contains the key |
| RiskScoring.FactorIncludes | src/services/api/riskAssessmentService.js:203-216 | the substring test on one factor agrees with the trigger table |
| RiskScoring.SomeFactorMatches | src/services/api/riskAssessmentService.js:203-216 | the `some` loop finds a match iff the factor list triggers the key |
| RiskScoring.BaseRecommendations | src/services/api/riskAssessmentService.js:180-200 | high and medium start with 4 pieces of advice and low with 3 |
| RiskScoring.BaseHoldsNoAddition | src/services/api/riskAssessmentService.js:180-218 | no base list already holds one of the factor-driven additions |
| RiskScoring.WithAdditions | src/services/api/riskAssessmentService.js:202-218 | the additions only extend the base list, which stays a prefix |
| RiskScoring.AdditionsInOrder | src/services/api/riskAssessmentService.js:202-218 | each addition whose condition holds is appended once, after the base list and in rule order (gradual load, rehabilitation, methodology, psychology, sleep); the list grows by exactly one per condition, two for a decline |
| RiskScoring.WithAdditionsMembers | src/services/api/riskAssessmentService.js:202-218 | each addition is present iff it was in the base or its condition held |
| RiskScoring.Recommendations | src/services/api/riskAssessmentService.js:177-221 | the tier's base list comes first, in declared order |
| RiskScoring.RecommendationsInOrder | src/services/api/riskAssessmentService.js:177-221 | the list is as long as the base list plus one per triggered key (two for a decline); after the base list the additions follow in rule order; no piece of advice appears twice |
| RiskScoring.AdviceIffTriggered | src/services/api/riskAssessmentService.js:177-221 | each extra piece of advice is present iff some factor contains its key |
| RiskScoring.GenerateRecommendations | src/services/api/riskAssessmentService.js:177-221 | the push sequence builds exactly the specified recommendation list |
| RiskScoring.RecentInjuryAloneAddsNoRehab | src/services/api/riskAssessmentService.js:117-120 | "Recent injury (within 90 days)" does not contain "recent injury", so alone it adds no rehabilitation advice |
| RiskScoring.Assess | src/services/api/riskAssessmentService.js:2-43 | the composite score is the sum of the three reported sub-scores and lies in 0..100 |
| RiskScoring.AccumulateSubScores | src/services/api/riskAssessmentService.js:3-25 | the running score and factor list equal the three sub-scorers' sums and concatenation |
| RiskScoring.CalculateRiskScore | src/services/api/riskAssessmentService.js:2-43 | the returned object is the specified assessment, without the timestamp |
| RiskScoring.FactorsInEvaluationOrder | src/services/api/riskAssessmentService.js:3-28 | factors are listed training, then injury, then performance, and the tier is the score's tier |
| RiskScoring.TriggeredAppend | src/services/api/riskAssessmentService.js:203-216 | a key is triggered by a concatenation iff by one of its parts |
| RiskScoring.TrainingOrigin | src/services/api/riskAssessmentService.js:45-81 | the training scorer only reports training factors |
| RiskScoring.InjuryOrigin | src/services/api/riskAssessmentService.js:83-125 | the injury scorer only reports injury factors |
| RiskScoring.PerformanceOrigin | src/services/api/riskAssessmentService.js:127-169 | the performance scorer only reports performance factors |
| RiskScoring.TrainingTriggersOnlySpike | src/services/api/riskAssessmentService.js:45-81 | training factors never trigger the injury, decline or fatigue advice |
| RiskScoring.InjuryTriggersOnlyRecentInjury | src/services/api/riskAssessmentService.js:83-125 | injury factors never trigger the load, decline or fatigue advice |
| RiskScoring.PerformanceTriggersOnlyDeclineAndFatigue | src/services/api/riskAssessmentService.js:127-169 | performance factors never trigger the load or injury advice |
| RiskScoring.SpikeTriggered | src/services/api/riskAssessmentService.js:62-65 | the training factors contain "load spike" iff the data reports a load spike |
| RiskScoring.RecentInjuryTriggered | src/services/api/riskAssessmentService.js:93-116 | the injury factors contain "recent injury" iff there are recent injuries or the last one was within 30 days |
| RiskScoring.DeclineTriggered | src/services/api/riskAssessmentService.js:135-138 | the performance factors contain "performance decline" iff a decline is reported |
| RiskScoring.FatigueTriggered | src/services/api/riskAssessmentService.js:148-154 | the performance factors contain "fatigue" iff there is more than one fatigue indicator |
| RiskScoring.AssessTriggered | src/services/api/riskAssessmentService.js:2-28 | a key is triggered by the composite's factors iff by one sub-scorer's |
| RiskScoring.GradualLoadAdviceIffSpike | src/services/api/riskAssessmentService.js:203-205 | the assessment advises gradual load progression iff the training data reports a load spike |
| RiskScoring.RehabAdviceIffRecentInjury | src/services/api/riskAssessmentService.js:207-209 | rehabilitation advice appears iff there are recent injuries or an injury within 30 days |
| RiskScoring.DeclineAdviceIffDecline | src/services/api/riskAssessmentService.js:211-214 | both decline recommendations appear iff a performance decline is reported |
| RiskScoring.SleepAdviceIffFatigue | src/services/api/riskAssessmentService.js:216-218 | the sleep advice appears iff there is more than one fatigue indicator |
| RiskScoring.NoDataFatiguedAthleteIsLowTier | src/services/api/riskAssessmentService.js:2-43 | no training or injury data plus a fatigued, below-average trend scores 10 + 0 + 18 and is low tier |
| Text.ParseIntRule | src/components/organisms/AthleteModal.jsx:107-108 | `parseInt` skips leading whitespace, takes one optional sign and the digit run after it, and gives the digits' decimal value, negated after a `-`; with no digit after the optional sign it gives `NaN` (the same reading serves Training.jsx:88-89 and 136) |
| Records.FindIndex | src/services/api/athleteService.js:36 | the index found holds the Id and no earlier record does; none means no record holds it |
| Records.MaxNumId | src/services/api/athleteService.js:24 | the largest number Id, present in the table and no smaller than any other |
| Records.NextId | src/services/api/athleteService.js:24 | the next Id differs from every existing Id, and is `-Infinity` exactly for a table with no number Id |
| Records.Created | src/services/api/athleteService.js:25-29 | the created record carries the new Id, then the data, then the store's own stamp |
| Records.Merged | src/services/api/athleteService.js:40 | object spread: supplied fields win, other fields are kept |
| Records.RemoveAt | src/services/api/athleteService.js:50 | `splice(i, 1)`: one shorter, elements before `i` kept, later ones shift down |
| Records.CreatedKeepsWellKeyed | src/services/api/athleteService.js:24-30 | appending the created record keeps every Id present and the number Ids distinct |
| Records.MergedKeepsWellKeyed | src/services/api/athleteService.js:40 | overlaying fields other than `Id` keeps Ids distinct |
| Records.RemoveAtKeepsWellKeyed | src/services/api/athleteService.js:50 | splicing keeps Ids distinct |
| Records.IdAtOnePosition | src/services/api/athleteService.js:15 | in a well-keyed table, a record holding the Id is the one `findIndex` returns, so `find` and `findIndex` agree |
| Records.CreatedIsFound | src/services/api/athleteService.js:24-31 | after `create`, the new Id is found at the last position |
| Records.RemovedIsGone | src/services/api/athleteService.js:46-51 | after `delete`, the Id is no longer found |
| AthleteStore.AthleteService.GetAll | src/services/api/athleteService.js:8-11 | returns the table's contents in order |
| AthleteStore.AthleteService.GetById | src/services/api/athleteService.js:13-20 | succeeds iff some athlete has the Id, and returns it; otherwise fails with "Athlete not found" |
| AthleteStore.AthleteService.Create | src/services/api/athleteService.js:22-32 | appends exactly one record with Id max + 1 and `joinDate` set by the store, keeping Ids unique |
| AthleteStore.AthleteService.Update | src/services/api/athleteService.js:34-42 | overlays the data on the matching record only; a missing Id fails and leaves the table unchanged |
| AthleteStore.AthleteService.Delete | src/services/api/athleteService.js:44-52 | removes exactly the matching record, keeping order, and returns true; a missing Id fails and changes nothing |
| HealthStore.HealthService.GetAll | src/services/api/healthService.js:8-11 | returns the table's contents in order |
| HealthStore.HealthService.GetById | src/services/api/healthService.js:13-20 | finds by Id or fails with "Health record not found" |
| HealthStore.HealthService.GetByAthleteId | src/services/api/healthService.js:22-26 | exactly the records of that athlete, in table order, each as often as the table holds it |
| HealthStore.HealthService.Create | src/services/api/healthService.js:28-38 | appends one record with Id max + 1 and `lastUpdated` set by the store |
| HealthStore.HealthService.Update | src/services/api/healthService.js:40-52 | overlays the data and re-stamps `lastUpdated` on the matching record only; a missing Id fails and changes nothing |
| HealthStore.HealthService.Delete | src/services/api/healthService.js:54-62 | removes exactly the matching record, or fails and changes nothing |
| PerformanceStore.PerformanceService.GetAll | src/services/api/performanceService.js:8-11 | returns the table's contents in order |
| PerformanceStore.PerformanceService.GetById | src/services/api/performanceService.js:13-20 | finds by Id or fails with "Performance record not found" |
| PerformanceStore.PerformanceService.GetByAthleteId | src/services/api/performanceService.js:22-26 | exactly the records of that athlete, in table order, each as often as the table holds it |
| PerformanceStore.PerformanceService.Create | src/services/api/performanceService.js:28-38 | appends one record with Id max + 1 and `lastUpdated` set by the store |
| PerformanceStore.PerformanceService.Update | src/services/api/performanceService.js:40-52 | overlays the data and re-stamps `lastUpdated` on the matching record only; a missing Id fails and changes nothing |
| PerformanceStore.PerformanceService.Delete | src/services/api/performanceService.js:54-62 | removes exactly the matching record, or fails and changes nothing |
| TrainingStore.TrainingService.GetAll | src/services/api/trainingService.js:8-11 | returns the table's contents in order |
| TrainingStore.TrainingService.GetById | src/services/api/trainingService.js:13-20 | finds by Id or fails with "Training session not found" |
| TrainingStore.TrainingService.Create | src/services/api/trainingService.js:22-31 | appends one session with Id max + 1 and adds no stamp |
| TrainingStore.TrainingService.Update | src/services/api/trainingService.js:33-41 | overlays the data on the matching session only; a missing Id fails and changes nothing |
| TrainingStore.TrainingService.Delete | src/services/api/trainingService.js:43-51 | removes exactly the matching session, or fails and changes nothing |
| Forms.ErrorCleared | src/components/organisms/AthleteModal.jsx:54-60 | a shown message for the edited input is blanked; every other message is kept and no key is added |
| Forms.InputChanged | src/components/organisms/HealthModal.jsx:99-105 | the input takes the new value, the others keep theirs, and the errors are cleared for that input |
| Forms.ClearingIsIdempotent | src/components/organisms/AthleteModal.jsx:54-60 | typing twice into an input clears as typing once |
| Forms.ClearingOnlyHides | src/components/organisms/AthleteModal.jsx:54-60 | clearing never makes a message appear |
| AthleteForm.AthleteErrorRules | src/components/organisms/AthleteModal.jsx:62-93 | each input has an error iff its check fails; a blank email is "required" and a malformed one "invalid"; the photo is never checked |
| AthleteForm.ErrorsForRules | src/components/organisms/AthleteModal.jsx:62-93 | the error object holds exactly the inputs whose check failed |
| AthleteForm.ValidateAthleteForm | src/components/organisms/AthleteModal.jsx:62-93 | the filled error object is the specified one, and the form is valid iff it is empty |
| AthleteForm.RecordErrors | src/components/organisms/AthleteModal.jsx:65-89 | the input-by-input assignments build the specified error object |
| AthleteForm.EmailLikeInContext | src/components/organisms/AthleteModal.jsx:79 | the unanchored email pattern still matches with any text around it |
| AthleteForm.JoinDate | src/components/organisms/AthleteModal.jsx:109 | an edited athlete's truthy join date is kept, otherwise now is used |
| AthleteForm.AthletePayload | src/components/organisms/AthleteModal.jsx:105-110 | text inputs are copied; age and jersey number are what `parseInt` reads, or `NaN` |
| AthleteForm.ToRecord | src/components/organisms/AthleteModal.jsx:105-110 | the payload object carries no `Id`, and its numbers and join date are the payload's |
| AthleteForm.ValidatedPayload | src/components/organisms/AthleteModal.jsx:62-110 | a validated form sends a non-blank name and phone, a position, a well-shaped email, and any number it sends is in range |
| AthleteForm.BlankAgePasses | src/components/organisms/AthleteModal.jsx:73 | the age " " passes the check and is saved as `NaN` |
| AthleteForm.IntendedCheckIsStricter | src/components/organisms/AthleteModal.jsx:73 | the intended check rejects all the written one does, and " " as well |
| AthleteForm.IntendedCheckSavesNumbers | src/components/organisms/AthleteModal.jsx:73-88 | under the intended check, an accepted age and jersey number are saved as numbers in range |
| HealthForm.OfferedStatuses | src/components/organisms/HealthModal.jsx:123 | of the offered statuses, the two injuries and "Recovering" are injury statuses; "Healthy" and "Under Observation" are not |
| HealthForm.BaseErrorsRules | src/components/organisms/HealthModal.jsx:110-120 | the first block flags exactly the missing athlete, the missing status and the blank condition |
| HealthForm.InjuryErrorsRules | src/components/organisms/HealthModal.jsx:123-140 | the injury block flags the failing injury inputs under an injury status and touches nothing else |
| HealthForm.ErrorsForRules | src/components/organisms/HealthModal.jsx:107-153 | the error object holds exactly the failing checks, the injury inputs only under an injury status |
| HealthForm.HealthErrorRules | src/components/organisms/HealthModal.jsx:107-153 | athlete, status and condition are required; the five injury inputs only under an injury status; a given check-up must be in the future; notes are never checked |
| HealthForm.NonInjuryStatusIgnoresInjuryInputs | src/components/organisms/HealthModal.jsx:123-140 | under "Healthy" or "Under Observation" no injury input is ever flagged |
| HealthForm.ValidateHealthForm | src/components/organisms/HealthModal.jsx:107-153 | the filled error object is the specified one, and the form is valid iff it is empty |
| HealthForm.RecordErrors | src/components/organisms/HealthModal.jsx:108-149 | the step-by-step assignments build the specified error object |
| HealthForm.RecordInjuryErrors | src/components/organisms/HealthModal.jsx:124-140 | the injury branch adds exactly the injury block's messages |
| AthletesPage.FilterAthletes | src/components/pages/Athletes.jsx:46-72 | the successive filters leave exactly the athletes that pass every filter that is set, in roster order |
| AthletesPage.FilteredIsSubsequence | src/components/pages/Athletes.jsx:46-72 | the filtered roster keeps roster order |
| AthletesPage.NoFiltersShowAll | src/components/pages/Athletes.jsx:46-72 | with no term and no filter, the whole roster is shown |
| AthletesPage.OfferedAgeRanges | src/components/molecules/FilterBar.jsx:38-41 | the offered ranges become the inclusive bounds 16-20, 21-25, 26-30 and 31-100 |
| AthletesPage.DashRange | src/components/pages/Athletes.jsx:65-67 | a two-digit "ab-cd" range splits into the two numbers |
| AthletesPage.PlusRange | src/components/pages/Athletes.jsx:65-66 | a two-digit "ab+" range runs from that number to 100 |
| AthletesPage.RemoveAthlete | src/components/pages/Athletes.jsx:111 | the roster after a delete holds exactly the athletes with a different Id, in order |
| AthletesPage.AppendAthlete | src/components/pages/Athletes.jsx:123 | the roster after an add is the old roster followed by the new athlete |
| AthletesPage.ReplaceAthlete | src/components/pages/Athletes.jsx:126 | the roster after an edit keeps its length, with every entry of the edited Id replaced |
| AthletesPage.OnlyMatchIsFound | src/components/pages/Athletes.jsx:110-111 | in a well-keyed roster, no record but the one `findIndex` finds has that Id |
| AthletesPage.RemoveMatchesStore | src/components/pages/Athletes.jsx:110-111 | the page's delete filter removes exactly what the store's splice removes |
| AthletesPage.AddThenRemove | src/components/pages/Athletes.jsx:111-123 | adding an athlete with a fresh Id and deleting it gives the roster back |
| AthletesPage.ReplaceMatchesStore | src/components/pages/Athletes.jsx:125-126 | the page's edit replaces the record at the position where the store's update wrote it |
| AthletesPage.PositionOptions | src/components/pages/Athletes.jsx:141 | every position on the roster appears, and each appears once |
| Seqs.DistinctFirstOccurrence | src/components/pages/Athletes.jsx:141 | `new Set` lists the values in the order of their first occurrence |
| RiskPage.Matching | src/components/pages/RiskAssessment.jsx:50-62 | the assessments passing the search and tier filters, in their original order |
| RiskPage.FilterAssessments | src/components/pages/RiskAssessment.jsx:50-68 | the output is the stable sort of the matching assessments; it is sorted by score, highest first, and is a permutation of the matching ones; "all" applies no tier restriction |
| RiskPage.HighestFirst | src/components/pages/RiskAssessment.jsx:65 | sorting by the negated score puts higher scores first and keeps the same entries |
| Seqs.SortByStable | src/components/pages/RiskAssessment.jsx:65 | the sort is stable: the entries sharing any one key keep their input order |
| Seqs.InsertByAhead | src/components/pages/RiskAssessment.jsx:65 | inserting into a sorted list places the new entry ahead of every entry with its key and keeps the others' order |
| RiskPage.Refreshed | src/components/pages/RiskAssessment.jsx:73-77 | length and order are kept; only entries with the refreshed athlete's Id are replaced |
| RiskPage.RefreshMissingIsNoOp | src/components/pages/RiskAssessment.jsx:73-77 | refreshing an athlete not in the list changes nothing |
| RiskPage.RefreshSingle | src/components/pages/RiskAssessment.jsx:73-77 | with one matching entry, refreshing overwrites exactly that position |
| RiskPage.RefreshKeepsAthletes | src/components/pages/RiskAssessment.jsx:73-77 | a refresh for the same athlete keeps each position's athlete |
| RiskPage.RiskStats | src/components/pages/RiskAssessment.jsx:115-122 | the total is the list's length and no tier count exceeds it |
| RiskPage.StatsAddUp | src/components/pages/RiskAssessment.jsx:115-122 | high + medium + low equals the total when every level is one of the three tiers |
| RiskPage.EngineStatsAddUp | src/components/pages/RiskAssessment.jsx:115-122 | the counts add up for assessments whose tier follows from their score |
| RiskPage.BadgeVariant | src/components/pages/RiskAssessment.jsx:88-95 | total, with "secondary" exactly for a level that is not a tier |
| RiskPage.RiskIcon | src/components/pages/RiskAssessment.jsx:97-104 | total, with "HelpCircle" exactly for a level that is not a tier |
| RiskPage.RiskColor | src/components/pages/RiskAssessment.jsx:106-113 | total, with "text-secondary-600" exactly for a level that is not a tier |
| RiskPage.BadgeIsServiceColor | src/components/pages/RiskAssessment.jsx:88-95 | the page's badge table equals the service's `getRiskLevelColor` |
| RiskPage.TierMapsDistinguishTiers | src/components/pages/RiskAssessment.jsx:88-113 | distinct tiers get distinct badges, icons and colours |
| TrainingPage.ErrorsForRules | src/components/pages/Training.jsx:107-122 | the error object holds exactly the failing checks; assignment type and notes are never flagged |
| TrainingPage.SessionErrorRules | src/components/pages/Training.jsx:107-122 | title and location must be non-blank after trim; date, time, type and duration non-empty; an individual session needs an athlete |
| TrainingPage.TeamNeedsNoAthletes | src/components/pages/Training.jsx:116-118 | a team session never gets the athlete-selection error |
| TrainingPage.ValidateSessionForm | src/components/pages/Training.jsx:107-122 | the filled error object is the specified one, and the form is valid iff it is empty |
| TrainingPage.RecordErrors | src/components/pages/Training.jsx:110-118 | the input-by-input assignments build the specified error object |
| TrainingPage.BoxToggled | src/components/pages/Training.jsx:84-90 | ticking appends the parsed id; unticking removes every occurrence of it; text inputs and errors are unchanged |
| TrainingPage.TextChanged | src/components/pages/Training.jsx:91-104 | the input takes the new value, the selection is unchanged, and the input's message is cleared |
| TrainingPage.TickThenUntick | src/components/pages/Training.jsx:84-90 | ticking a new athlete and unticking it restores the selection |
| TrainingPage.UntickIsIdempotent | src/components/pages/Training.jsx:88 | unticking twice is unticking once |
| TrainingPage.SessionPayload | src/components/pages/Training.jsx:134-139 | a team session sends no athletes, any other sends the selection; duration is parsed and the date converted |
| TrainingPage.ToRecord | src/components/pages/Training.jsx:134-139 | the session object carries no `Id`, and its athletes and duration are the payload's |
| TrainingPage.ValidIndividualSessionHasAthletes | src/components/pages/Training.jsx:116-139 | a validated individual session always sends at least one athlete |
| TrainingPage.UpcomingSessions | src/components/pages/Training.jsx:210-213 | as many sessions as are upcoming, capped at five; all from the list and dated at or after now, in ascending date order |
| TrainingPage.UpcomingAreEarliest | src/components/pages/Training.jsx:210-213 | every upcoming session left out is no earlier than each one shown |
| TrainingPage.FewUpcomingAllShown | src/components/pages/Training.jsx:210-213 | with at most five upcoming sessions, all of them are shown |
| TrainingPage.SessionTypeColor | src/components/pages/Training.jsx:71-79 | Technical, Physical and Tactical map to their colours, and every other type falls back to "secondary" |

## Left out

- Clocks: `new Date()` and the `lastUpdated` and `joinDate` timestamps are a
  `now` parameter. The assessment omits `lastUpdated`.
- Date parsing: `new Date(s)` and `toISOString` are function parameters
  (`parseDate`, `timeOf`, `isoDate`).
- Extracting the engine's inputs: the training, injury and performance
  summaries are taken as given. The routine that builds them is not part of
  this model.
- `athleteService.getRiskAssessment`, which feeds the risk page, is not part of
  this model. The page's entries are taken to be engine assessments.
- The simulated `delay`, `async`/`await`, toasts, routing and all rendering are
  left out. The stores' methods are synchronous.
- Strings are ASCII. `toLowerCase` and `trim` cover ASCII letters and ASCII
  whitespace only.
- `Number` accepts decimal literals only. Hex, exponents and `Infinity` are
  not modelled.
- Text.ParseInt reads base 10 only. JavaScript's `parseInt("0x14")` is 20,
  because a `0x` prefix switches it to base 16; the model reads 0.
- The stores' `getById`, `getByAthleteId`, `update` and `delete` take the Id
  as an integer. The source first applies `parseInt` to it
  (src/services/api/athleteService.js:15, 36 and 46, and the same calls in the
  other three services). So "3abc" finds record 3 and a non-numeric Id finds
  nothing. The model starts after that conversion.
- Sub-score inputs are real numbers, not IEEE doubles.
- RiskPage.FilterAssessments: the source sorts its local copy in place. Here
  the copy is reassigned to the result of a stable insertion sort.
- A store's `create` and `update` require a payload without `Id`. All callers
  send form payloads, which have none.
- AthletesPage.FilterAthletes and RiskPage.FilterAssessments require the
  searched fields to be strings while a term is typed. The source would throw
  on `toLowerCase` of a missing field.
- HealthForm.HealthErrorRules: an invalid next check-up date compares false
  against now, so it is never flagged. The model keeps this behaviour.
- TrainingPage.BoxToggled: the checkboxes have no `name`, so ticking one never
  clears the athlete-selection message. The model keeps this behaviour.
- TrainingPage.SessionTypeColor: inherited property names such as
  "constructor" would read a function from the colour table. Only own keys are
  modelled.
- The health-record payload and the pages not listed above are not modelled.
  Those pages are the performance page, the athlete profile, the health page
  and the calendar grid.

## Findings

| source | as written | input that shows it | evidently intended | confidence | as-written member | corrected member |
|---|---|---|---|---|---|---|
| src/components/organisms/AthleteModal.jsx:73 | the age check rejects `!age`, `isNaN(age)` and an out-of-range `parseInt(age)` | age " ": `Number(" ")` is 0, so `isNaN` is false, while `parseInt(" ")` is `NaN` and fails both comparisons; the form passes and saves age `NaN`. From the page this is latent, because the Age input is `type="number"` and `required` (AthleteModal.jsx:179-187), and input types are not modelled. The jersey "1e1" does reach the check, passes it and is saved as 1, but exponents are not modelled | reject any age that `parseInt` cannot read | not executed | AthleteForm.BlankAgePasses | AthleteForm.IntendedCheckSavesNumbers |
