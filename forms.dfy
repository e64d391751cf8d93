/** The forms of the health-log app (healthlog/core/forms.py): analyst
    registration, the three report filter forms and the admin user forms.
    A form's `clean*` method either raises a validation error or returns the
    cleaned value; here that is a `Result` or an `Outcome`. */
module HealthlogForms {
  import opened Wrappers
  import Dates
  import HealthlogModels

  datatype ValidationError = ValidationError(message: string)

  /** `KeyError` from indexing a dict with a missing key. */
  datatype KeyError = KeyError(key: string)

  const PasswordMismatch := "Passwords don't match."
  const AdminPasswordMismatch := "Passwords don't match"
  const AgeRangeMessage := "Maximum age should be greater than the minimum age."
  const DateRangeMessage := "Maximum date should be greater than the minimum date."

  /** `RegistrationForm.clean_password_repeated`: an absent password (one
      that failed its own validation) counts as `None`. */
  function CleanPasswordRepeated(password: Option<string>, repeated: Option<string>)
    : (r: Result<Option<string>, ValidationError>)
    ensures r.Err? <==> password != repeated
    ensures r.Ok? ==> r.value == repeated && r.value == password
  {
    if password != repeated then Err(ValidationError(PasswordMismatch)) else Ok(repeated)
  }

  /** `RegistrationForm.save`: a user with the form's e-mail and names, the
      password hashed from the submitted one, and always an analyst. */
  method SaveRegistration(email: string, firstName: string, lastName: string, password: string)
    returns (user: HealthlogModels.User)
    ensures fresh(user)
    ensures user.email == email && user.firstName == firstName && user.lastName == lastName
    ensures user.password == HealthlogModels.Hashed(password)
    ensures user.isAnalyst && user.isActive && !user.isAdmin && user.infoId == None
  {
    user := new HealthlogModels.User(email);
    user.firstName, user.lastName := firstName, lastName;
    user.SetPassword(Some(password));
    user.isAnalyst := true;
  }

  /** The three report filter forms. */
  datatype ReportForm = TopFoodChoice | TopTemporaryAilment | TopChronicCondition

  /** The cleaned values of a report form's fields; `None` is a blank field.
      Model choices are given by the primary key of the chosen record. */
  datatype ReportInput = ReportInput(
    minAge: Option<int>, maxAge: Option<int>,
    condition: Option<int>, ailment: Option<int>, food: Option<int>,
    minDate: Option<Dates.Date>, maxDate: Option<Dates.Date>,
    limit: Option<int>)

  predicate HasConditionField(f: ReportForm) { f != TopChronicCondition }
  predicate HasAilmentField(f: ReportForm) { f != TopTemporaryAilment }
  predicate HasFoodField(f: ReportForm) { f != TopFoodChoice }
  predicate HasDateFields(f: ReportForm) { f != TopChronicCondition }

  /** Binding a form to submitted data: fields the form does not declare are
      ignored, so they read as blank. */
  function Bind(f: ReportForm, d: ReportInput): (b: ReportInput)
    ensures b.minAge == d.minAge && b.maxAge == d.maxAge && b.limit == d.limit
    ensures b.condition == (if HasConditionField(f) then d.condition else None)
    ensures b.ailment == (if HasAilmentField(f) then d.ailment else None)
    ensures b.food == (if HasFoodField(f) then d.food else None)
    ensures b.minDate == (if HasDateFields(f) then d.minDate else None)
    ensures b.maxDate == (if HasDateFields(f) then d.maxDate else None)
  {
    d.(condition := if HasConditionField(f) then d.condition else None,
       ailment := if HasAilmentField(f) then d.ailment else None,
       food := if HasFoodField(f) then d.food else None,
       minDate := if HasDateFields(f) then d.minDate else None,
       maxDate := if HasDateFields(f) then d.maxDate else None)
  }

  /** Per-field validation: `min_age` and `limit` have a lower bound of 0,
      `max_age` has none; a date field only yields real calendar dates. */
  predicate FieldsValid(d: ReportInput) {
    && (d.minAge.Some? ==> d.minAge.value >= 0)
    && (d.limit.Some? ==> d.limit.value >= 0)
    && (d.minDate.Some? ==> Dates.Valid(d.minDate.value))
    && (d.maxDate.Some? ==> Dates.Valid(d.maxDate.value))
  }

  /** The age-range rule shared by the three forms. */
  function CheckAgeRange(minAge: Option<int>, maxAge: Option<int>): (r: Outcome<ValidationError>)
    ensures r.Fail? <==> minAge.Some? && maxAge.Some? && minAge.value > maxAge.value
    ensures r.Fail? ==> r.error.message == AgeRangeMessage
  {
    if minAge.Some? && maxAge.Some? && minAge.value > maxAge.value
    then Fail(ValidationError(AgeRangeMessage)) else Pass
  }

  /** The date-range rule of the food and ailment forms. */
  function CheckDateRange(minDate: Option<Dates.Date>, maxDate: Option<Dates.Date>)
    : (r: Outcome<ValidationError>)
    ensures r.Fail? <==> minDate.Some? && maxDate.Some? && Dates.Before(maxDate.value, minDate.value)
    ensures r.Fail? ==> r.error.message == DateRangeMessage
  {
    if minDate.Some? && maxDate.Some? && Dates.Before(maxDate.value, minDate.value)
    then Fail(ValidationError(DateRangeMessage)) else Pass
  }

  /** `clean()` of each report form: the age rule is checked first; the
      condition form has no date fields and checks only ages. */
  function Clean(f: ReportForm, d: ReportInput): (r: Outcome<ValidationError>)
    ensures r.Fail? <==>
      (d.minAge.Some? && d.maxAge.Some? && d.minAge.value > d.maxAge.value)
      || (HasDateFields(f) && d.minDate.Some? && d.maxDate.Some?
          && Dates.Before(d.maxDate.value, d.minDate.value))
    ensures r.Fail? && d.minAge.Some? && d.maxAge.Some? && d.minAge.value > d.maxAge.value
      ==> r.error.message == AgeRangeMessage
  {
    match CheckAgeRange(d.minAge, d.maxAge)
    case Fail(e) => Fail(e)
    case Pass => if HasDateFields(f) then CheckDateRange(d.minDate, d.maxDate) else Pass
  }

  /** The primary keys the model choice fields accept: those of the
      records in the tables their querysets (`objects.all()`) read. */
  datatype Choices = Choices(conditions: set<int>, ailments: set<int>, foods: set<int>)

  /** A `ModelChoiceField` raises `invalid_choice` for a key that names no
      record, so every chosen key must be among the accepted ones. */
  predicate ChoicesExist(d: ReportInput, c: Choices) {
    && (d.condition.Some? ==> d.condition.value in c.conditions)
    && (d.ailment.Some? ==> d.ailment.value in c.ailments)
    && (d.food.Some? ==> d.food.value in c.foods)
  }

  /** `form.is_valid()`: every field validates, every chosen record exists
      and `clean()` passes. */
  predicate IsValid(f: ReportForm, d: ReportInput, c: Choices) {
    FieldsValid(d) && ChoicesExist(d, c) && Clean(f, d).Pass?
  }

  /** A form is valid exactly when its fields validate, its choices name
      existing records and neither range rule fails; a choice of a missing
      record makes it invalid whatever the other fields hold. */
  lemma ValidExactly(f: ReportForm, d: ReportInput, c: Choices)
    ensures IsValid(f, d, c) <==>
      && FieldsValid(d)
      && (d.condition.Some? ==> d.condition.value in c.conditions)
      && (d.ailment.Some? ==> d.ailment.value in c.ailments)
      && (d.food.Some? ==> d.food.value in c.foods)
      && !(d.minAge.Some? && d.maxAge.Some? && d.minAge.value > d.maxAge.value)
      && !(HasDateFields(f) && d.minDate.Some? && d.maxDate.Some? && Dates.Before(d.maxDate.value, d.minDate.value))
  {
  }

  /** A blank bound never causes a range error. */
  lemma BlankBoundAccepted(f: ReportForm, d: ReportInput)
    requires d.minAge.None? || d.maxAge.None?
    requires d.minDate.None? || d.maxDate.None?
    ensures Clean(f, d).Pass?
  {
  }

  /** The food and ailment forms apply the same two rules. */
  lemma FoodAndAilmentRulesAgree(d: ReportInput)
    ensures Clean(TopFoodChoice, d) == Clean(TopTemporaryAilment, d)
  {
  }

  /** The condition form's verdict does not depend on any date. */
  lemma ConditionRuleIgnoresDates(d: ReportInput, minDate: Option<Dates.Date>, maxDate: Option<Dates.Date>)
    ensures Clean(TopChronicCondition, d) == Clean(TopChronicCondition, d.(minDate := minDate, maxDate := maxDate))
  {
  }

  /** `UserCreationForm.clean_password_two`: a mismatch is reported only when
      both passwords are non-blank and differ; otherwise `password_two` is
      returned as it is. */
  function CleanPasswordTwo(passwordOne: Option<string>, passwordTwo: Option<string>)
    : (r: Result<Option<string>, ValidationError>)
    ensures r.Err? <==>
      HealthlogModels.Truthy(passwordOne) && HealthlogModels.Truthy(passwordTwo) && passwordOne != passwordTwo
    ensures r.Ok? ==> r.value == passwordTwo
  {
    if HealthlogModels.Truthy(passwordOne) && HealthlogModels.Truthy(passwordTwo) && passwordOne != passwordTwo
    then Err(ValidationError(AdminPasswordMismatch))
    else Ok(passwordTwo)
  }

  /** `UserCreationForm.save`: the form's fields on a new user and the
      password hashed from `password_one`. */
  method SaveCreation(email: string, firstName: string, lastName: string, isAnalyst: bool, passwordOne: string)
    returns (user: HealthlogModels.User)
    ensures fresh(user)
    ensures user.email == email && user.firstName == firstName && user.lastName == lastName
    ensures user.isAnalyst == isAnalyst && user.password == HealthlogModels.Hashed(passwordOne)
    ensures user.isActive && !user.isAdmin
  {
    user := new HealthlogModels.User(email);
    user.firstName, user.lastName, user.isAnalyst := firstName, lastName, isAnalyst;
    user.SetPassword(Some(passwordOne));
  }

  /** `UserChangeForm.clean_password`: the initial password, whatever was
      submitted; a form without an initial password raises `KeyError`. */
  function CleanPassword(initial: map<string, string>, submitted: Option<string>): (r: Result<string, KeyError>)
    ensures r.Ok? <==> "password" in initial
    ensures r.Ok? ==> r.value == initial["password"]
  {
    if "password" in initial then Ok(initial["password"]) else Err(KeyError("password"))
  }

  /** What is submitted never changes what `clean_password` returns. */
  lemma CleanPasswordIgnoresSubmission(initial: map<string, string>, a: Option<string>, b: Option<string>)
    ensures CleanPassword(initial, a) == CleanPassword(initial, b)
  {
  }
}
