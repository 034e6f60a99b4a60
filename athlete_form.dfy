/**
 * The athlete form: `validateForm`, the record `handleSubmit` hands to the
 * store, and the error clearing of `handleInputChange` (which is
 * `Forms.InputChanged` over the input names below). The form holds the seven
 * text inputs the component initialises; `new Date().toISOString()` is the
 * `now` parameter.
 */
module AthleteForm {
  import opened Text
  import opened Records
  import opened Forms

  const NameRequired := "Name is required"
  const PositionRequired := "Position is required"
  const AgeOutOfRange := "Age must be between 16 and 45"
  const EmailRequired := "Email is required"
  const EmailInvalid := "Email is invalid"
  const PhoneRequired := "Phone number is required"
  const JerseyOutOfRange := "Jersey number must be between 1 and 99"

  /** The `name` attributes of the form's inputs. */
  datatype Input = Name | Position | Age | ContactEmail | ContactPhone | JerseyNumber | Photo

  type Form = map<Input, string>
  type Errors = map<Input, string>

  /** The inputs the form state always holds. */
  predicate IsAthleteForm(f: Form) {
    && Name in f && Position in f && Age in f && ContactEmail in f
    && ContactPhone in f && JerseyNumber in f && Photo in f
  }

  /**
   * `!s || isNaN(s) || parseInt(s) < lo || parseInt(s) > hi`. When `parseInt`
   * gives `NaN` both comparisons are false, so that case is not rejected.
   */
  predicate OutOfRange(s: string, lo: int, hi: int) {
    || Empty(s)
    || !IsNumeric(s)
    || (ParseInt(s).Some? && (ParseInt(s).value < lo || ParseInt(s).value > hi))
  }

  /**
   * `/\S+@\S+\.\S+/.test(s)`, unanchored: some `@` has a non-space just
   * before it, and a later `.` is reached from it through at least one
   * non-space and is followed by a non-space.
   */
  predicate EmailLike(s: string) {
    exists a, d | 0 < a && a + 1 < d < |s| - 1 :: EmailMatchAt(s, a, d)
  }

  /** The pattern matches with its `@` at index `a` and its `.` at index `d`. */
  predicate EmailMatchAt(s: string, a: int, d: int)
    requires 0 < a && a + 1 < d < |s| - 1
  {
    s[a] == '@' && !IsSpace(s[a - 1]) && s[d] == '.' && !IsSpace(s[d + 1]) && NonSpaceBetween(s, a, d)
  }

  /** Every character strictly between `a` and `d` is a non-space. */
  predicate NonSpaceBetween(s: string, a: int, d: int)
    requires 0 <= a <= d <= |s|
  {
    forall j | a < j < d :: !IsSpace(s[j])
  }

  /** An unanchored match survives any text around it. */
  lemma EmailLikeInContext(p: string, s: string, q: string)
    requires EmailLike(s)
    ensures EmailLike(p + s + q)
  {
    var a, d :| 0 < a && a + 1 < d < |s| - 1 && EmailMatchAt(s, a, d);
    var t := p + s + q;
    var o := |p|;
    assert s == t[o..o + |s|];
    NonSpaceInside(t, o, o + |s|, a, d);
    assert EmailMatchAt(t, o + a, o + d);
  }

  /** A stretch of non-spaces in a slice is one in the whole string. */
  lemma NonSpaceInside(t: string, lo: int, hi: int, a: int, d: int)
    requires 0 <= lo <= hi <= |t| && 0 <= a <= d <= hi - lo && NonSpaceBetween(t[lo..hi], a, d)
    ensures NonSpaceBetween(t, lo + a, lo + d)
  {
    forall j | lo + a < j < lo + d
      ensures !IsSpace(t[j])
    {
      assert t[j] == t[lo..hi][j - lo];
    }
  }

  /**
   * The error object `validateForm` builds from the outcome of each check:
   * one message per failing input, the email getting "required" or "invalid".
   */
  function ErrorsFor(nameBlank: bool, positionEmpty: bool, ageBad: bool, emailBlank: bool,
                     emailBad: bool, phoneBlank: bool, jerseyBad: bool): Errors
  {
    var e0: Errors := map[];
    var e1 := if nameBlank then e0[Name := NameRequired] else e0;
    var e2 := if positionEmpty then e1[Position := PositionRequired] else e1;
    var e3 := if ageBad then e2[Age := AgeOutOfRange] else e2;
    var e4 :=
      if emailBlank then e3[ContactEmail := EmailRequired]
      else if emailBad then e3[ContactEmail := EmailInvalid]
      else e3;
    var e5 := if phoneBlank then e4[ContactPhone := PhoneRequired] else e4;
    if jerseyBad then e5[JerseyNumber := JerseyOutOfRange] else e5
  }

  /** The error object for a form: name, position, age, email, phone and jersey number checked in that order. */
  function AthleteErrors(f: Form): Errors
    requires IsAthleteForm(f)
  {
    ErrorsFor(IsBlank(f[Name]), Empty(f[Position]), OutOfRange(f[Age], 16, 45), IsBlank(f[ContactEmail]),
      !EmailLike(f[ContactEmail]), IsBlank(f[ContactPhone]), OutOfRange(f[JerseyNumber], 1, 99))
  }

  /**
   * The rules: each input has an error exactly when its check fails; a blank
   * email is "required" and a non-blank one without the pattern "invalid";
   * the photo is never checked.
   */
  lemma AthleteErrorRules(f: Form)
    requires IsAthleteForm(f)
    ensures Name in AthleteErrors(f) <==> IsBlank(f[Name])
    ensures Position in AthleteErrors(f) <==> Empty(f[Position])
    ensures Age in AthleteErrors(f) <==> OutOfRange(f[Age], 16, 45)
    ensures ContactEmail in AthleteErrors(f) <==> IsBlank(f[ContactEmail]) || !EmailLike(f[ContactEmail])
    ensures ContactEmail in AthleteErrors(f) ==>
      (AthleteErrors(f)[ContactEmail] == EmailRequired <==> IsBlank(f[ContactEmail]))
    ensures ContactPhone in AthleteErrors(f) <==> IsBlank(f[ContactPhone])
    ensures JerseyNumber in AthleteErrors(f) <==> OutOfRange(f[JerseyNumber], 1, 99)
    ensures Photo !in AthleteErrors(f)
  {
    ErrorsForRules(IsBlank(f[Name]), Empty(f[Position]), OutOfRange(f[Age], 16, 45), IsBlank(f[ContactEmail]),
      !EmailLike(f[ContactEmail]), IsBlank(f[ContactPhone]), OutOfRange(f[JerseyNumber], 1, 99));
  }

  /** Which inputs `ErrorsFor` flags, and with which email message. */
  lemma ErrorsForRules(nameBlank: bool, positionEmpty: bool, ageBad: bool, emailBlank: bool,
                       emailBad: bool, phoneBlank: bool, jerseyBad: bool)
    ensures var e := ErrorsFor(nameBlank, positionEmpty, ageBad, emailBlank, emailBad, phoneBlank, jerseyBad);
      && (Name in e <==> nameBlank) && (Position in e <==> positionEmpty) && (Age in e <==> ageBad)
      && (ContactEmail in e <==> emailBlank || emailBad)
      && (ContactEmail in e ==> (e[ContactEmail] == EmailRequired <==> emailBlank))
      && (ContactPhone in e <==> phoneBlank) && (JerseyNumber in e <==> jerseyBad) && Photo !in e
  {
  }

  /** `validateForm`: runs the checks, records a message per failing input, and reports whether none failed. */
  method ValidateAthleteForm(f: Form) returns (errors: Errors, valid: bool)
    requires IsAthleteForm(f)
    ensures errors == AthleteErrors(f)
    ensures valid <==> NoErrors(errors)
  {
    var nameBlank, positionEmpty, ageBad := IsBlank(f[Name]), Empty(f[Position]), OutOfRange(f[Age], 16, 45);
    var emailBlank, emailBad := IsBlank(f[ContactEmail]), !EmailLike(f[ContactEmail]);
    var phoneBlank, jerseyBad := IsBlank(f[ContactPhone]), OutOfRange(f[JerseyNumber], 1, 99);
    errors := RecordErrors(nameBlank, positionEmpty, ageBad, emailBlank, emailBad, phoneBlank, jerseyBad);
    valid := |errors| == 0;
  }

  /** Fills `newErrors` input by input from the outcome of each check. */
  method RecordErrors(nameBlank: bool, positionEmpty: bool, ageBad: bool, emailBlank: bool,
                      emailBad: bool, phoneBlank: bool, jerseyBad: bool) returns (errors: Errors)
    ensures errors == ErrorsFor(nameBlank, positionEmpty, ageBad, emailBlank, emailBad, phoneBlank, jerseyBad)
  {
    errors := map[];
    if nameBlank {
      errors := errors[Name := NameRequired];
    }
    if positionEmpty {
      errors := errors[Position := PositionRequired];
    }
    if ageBad {
      errors := errors[Age := AgeOutOfRange];
    }
    if emailBlank {
      errors := errors[ContactEmail := EmailRequired];
    } else if emailBad {
      errors := errors[ContactEmail := EmailInvalid];
    }
    if phoneBlank {
      errors := errors[ContactPhone := PhoneRequired];
    }
    if jerseyBad {
      errors := errors[JerseyNumber := JerseyOutOfRange];
    }
  }

  /** The record `handleSubmit` passes to `onSave`, field by field. */
  datatype AthleteData = AthleteData(
    name: string, position: string, age: Value, contactEmail: string,
    contactPhone: string, jerseyNumber: Value, photo: string, joinDate: Value)

  /** `athlete?.joinDate || now`: an existing truthy join date wins. */
  function JoinDate(athlete: Option<Record>, now: string): (v: Value)
    ensures athlete.Some? && Truthy(Get(athlete.value, "joinDate")) ==> v == athlete.value["joinDate"]
    ensures !(athlete.Some? && Truthy(Get(athlete.value, "joinDate"))) ==> v == Text(now)
  {
    if athlete.Some? && Truthy(Get(athlete.value, "joinDate")) then athlete.value["joinDate"] else Text(now)
  }

  /**
   * `{ ...formData, age: parseInt(age), jerseyNumber: parseInt(jerseyNumber), joinDate }`:
   * the inputs as text, the two numbers as `parseInt` reads them, and the
   * join date of the athlete being edited when it has one.
   */
  function AthletePayload(f: Form, athlete: Option<Record>, now: string): (d: AthleteData)
    requires IsAthleteForm(f)
    ensures d.name == f[Name] && d.position == f[Position] && d.photo == f[Photo]
    ensures d.contactEmail == f[ContactEmail] && d.contactPhone == f[ContactPhone]
    ensures d.age.Num? || d.age.NaN?
    ensures d.age.Num? <==> ParseInt(f[Age]).Some?
    ensures d.age.Num? ==> ParseInt(f[Age]) == Some(d.age.n)
    ensures d.jerseyNumber.Num? || d.jerseyNumber.NaN?
    ensures d.jerseyNumber.Num? <==> ParseInt(f[JerseyNumber]).Some?
    ensures d.jerseyNumber.Num? ==> ParseInt(f[JerseyNumber]) == Some(d.jerseyNumber.n)
  {
    AthleteData(f[Name], f[Position], ParseIntValue(f[Age]), f[ContactEmail],
      f[ContactPhone], ParseIntValue(f[JerseyNumber]), f[Photo], JoinDate(athlete, now))
  }

  /** The payload as the object the store receives; it carries no `Id`, as the store's `create` and `update` require. */
  function ToRecord(d: AthleteData): (r: Record)
    ensures "Id" !in r
    ensures Get(r, "age") == Some(d.age) && Get(r, "jerseyNumber") == Some(d.jerseyNumber)
    ensures Get(r, "joinDate") == Some(d.joinDate)
  {
    map[
      "name" := Text(d.name), "position" := Text(d.position), "age" := d.age,
      "contactEmail" := Text(d.contactEmail), "contactPhone" := Text(d.contactPhone),
      "jerseyNumber" := d.jerseyNumber, "photo" := Text(d.photo), "joinDate" := d.joinDate]
  }

  /**
   * What a form that passed validation sends: a non-blank name, a position,
   * an email of the right shape, a phone, and an age and jersey number that
   * are in range whenever `parseInt` reads a number from them.
   */
  lemma ValidatedPayload(f: Form, athlete: Option<Record>, now: string)
    requires IsAthleteForm(f) && NoErrors(AthleteErrors(f))
    ensures !IsBlank(AthletePayload(f, athlete, now).name) && !Empty(AthletePayload(f, athlete, now).position)
    ensures EmailLike(AthletePayload(f, athlete, now).contactEmail) && !IsBlank(AthletePayload(f, athlete, now).contactPhone)
    ensures AthletePayload(f, athlete, now).age.Num? ==> 16 <= AthletePayload(f, athlete, now).age.n <= 45
    ensures AthletePayload(f, athlete, now).jerseyNumber.Num? ==> 1 <= AthletePayload(f, athlete, now).jerseyNumber.n <= 99
  {
    AthleteErrorRules(f);
  }

  /**
   * The age check as written lets a whitespace-only age through: `Number(" ")`
   * is 0, so `isNaN` is false, while `parseInt(" ")` is `NaN`, which fails
   * both range comparisons. The saved age is then `NaN`.
   */
  lemma BlankAgePasses()
    ensures !OutOfRange(" ", 16, 45)
    ensures ParseIntValue(" ") == NaN
  {
    BlankParse(" ");
    BlankNumber(" ");
  }

  /** The evident intent of the age and jersey checks: a number that `parseInt` reads, within the bounds. */
  predicate IntendedOutOfRange(s: string, lo: int, hi: int) {
    OutOfRange(s, lo, hi) || ParseInt(s).None?
  }

  /** The intended check rejects everything the written one does, and the blank age as well. */
  lemma IntendedCheckIsStricter(s: string, lo: int, hi: int)
    ensures OutOfRange(s, lo, hi) ==> IntendedOutOfRange(s, lo, hi)
    ensures IntendedOutOfRange(" ", 16, 45)
  {
    BlankParse(" ");
  }

  /** Under the intended check, an accepted age or jersey number is always saved as a number in range. */
  lemma IntendedCheckSavesNumbers(f: Form, athlete: Option<Record>, now: string)
    requires IsAthleteForm(f)
    requires !IntendedOutOfRange(f[Age], 16, 45) && !IntendedOutOfRange(f[JerseyNumber], 1, 99)
    ensures AthletePayload(f, athlete, now).age.Num? && 16 <= AthletePayload(f, athlete, now).age.n <= 45
    ensures AthletePayload(f, athlete, now).jerseyNumber.Num? && 1 <= AthletePayload(f, athlete, now).jerseyNumber.n <= 99
  {
  }
}
