/** The serializer logic of the health-log API (healthlog/core/serializers.py):
    token credentials, field updates, ailment lookup, daily nutrient totals
    and registration. Field lists that the framework interprets are not
    modelled. */
module Serializers {
  import opened Wrappers
  import Dates
  import HealthlogModels

  /** `serializers.ValidationError(message, code=...)`. */
  datatype ValidationError = ValidationError(message: string, code: Option<string>)

  datatype AttributeError = AttributeError(attribute: string)

  /** A database constraint violation: positive-integer columns refuse
      negative values. */
  datatype IntegrityError = IntegrityError(column: string)

  // ---------------------------------------------------------------- tokens

  /** A value in `TokenSerializer`'s attrs: submitted text, or the user that
      `validate` adds, by primary key. */
  datatype AttrValue = Text(text: string) | UserRef(pk: int)

  /** Python truthiness of `attrs.get(key)`. */
  predicate Present(attrs: map<string, AttrValue>, key: string) {
    key in attrs && (attrs[key].Text? ==> attrs[key].text != "")
  }

  function TextOf(v: AttrValue): string {
    if v.Text? then v.text else ""
  }

  const CredentialsRejected := "Unable to log in with provided credentials."
  const CredentialsMissing := "Must include \"email\" and \"password\"."

  /** `TokenSerializer.validate`. `authenticate` is the authentication
      backend, passed in; it answers with the primary key of the user the
      credentials belong to, or `None`. */
  function ValidateToken(attrs: map<string, AttrValue>, authenticate: (string, string) -> Option<int>)
    : (r: Result<map<string, AttrValue>, ValidationError>)
    ensures !(Present(attrs, "email") && Present(attrs, "password")) ==>
      r == Err(ValidationError(CredentialsMissing, Some("authorization")))
    ensures Present(attrs, "email") && Present(attrs, "password") ==>
      var found := authenticate(TextOf(attrs["email"]), TextOf(attrs["password"]));
      && (r.Ok? <==> found.Some?)
      && (r.Err? ==> r.error == ValidationError(CredentialsRejected, Some("authorization")))
      && (r.Ok? ==> r.value.Keys == attrs.Keys + {"user"} && r.value["user"] == UserRef(found.value))
    ensures r.Ok? ==> forall k :: k in attrs && k != "user" ==> r.value[k] == attrs[k]
  {
    if Present(attrs, "email") && Present(attrs, "password") then
      match authenticate(TextOf(attrs["email"]), TextOf(attrs["password"]))
      case None => Err(ValidationError(CredentialsRejected, Some("authorization")))
      case Some(user) => Ok(attrs["user" := UserRef(user)])
    else Err(ValidationError(CredentialsMissing, Some("authorization")))
  }

  // ---------------------------------------------------------- field updates

  /** One entry of a validated info dict. */
  datatype InfoField = BirthDate(date: Dates.Date) | Weight(weight: nat) | Height(height: nat)

  /** The key of an info field in the `info` dict. */
  function InfoKey(x: InfoField): (k: string)
    ensures k in {"birth_date", "weight", "height"}
  {
    match x
    case BirthDate(_) => "birth_date"
    case Weight(_) => "weight"
    case Height(_) => "height"
  }

  predicate SameInfoKey(a: InfoField, b: InfoField) {
    (a.BirthDate? && b.BirthDate?) || (a.Weight? && b.Weight?) || (a.Height? && b.Height?)
  }

  /** A dict has each key once. */
  predicate DistinctInfoKeys(data: seq<InfoField>) {
    forall i, j :: 0 <= i < j < |data| ==> !SameInfoKey(data[i], data[j])
  }

  /** `save_fields(instance, data)`: every key in `data` is set on the
      instance and every other attribute keeps its value. */
  method SaveFields(instance: HealthlogModels.Info, data: seq<InfoField>)
    requires DistinctInfoKeys(data)
    modifies instance
    ensures forall i :: 0 <= i < |data| && data[i].BirthDate? ==> instance.birthDate == data[i].date
    ensures forall i :: 0 <= i < |data| && data[i].Weight? ==> instance.weight == data[i].weight
    ensures forall i :: 0 <= i < |data| && data[i].Height? ==> instance.height == data[i].height
    ensures (forall i :: 0 <= i < |data| ==> !data[i].BirthDate?) ==> instance.birthDate == old(instance.birthDate)
    ensures (forall i :: 0 <= i < |data| ==> !data[i].Weight?) ==> instance.weight == old(instance.weight)
    ensures (forall i :: 0 <= i < |data| ==> !data[i].Height?) ==> instance.height == old(instance.height)
  {
    for n := 0 to |data|
      invariant forall i :: 0 <= i < n && data[i].BirthDate? ==> instance.birthDate == data[i].date
      invariant forall i :: 0 <= i < n && data[i].Weight? ==> instance.weight == data[i].weight
      invariant forall i :: 0 <= i < n && data[i].Height? ==> instance.height == data[i].height
      invariant (forall i :: 0 <= i < n ==> !data[i].BirthDate?) ==> instance.birthDate == old(instance.birthDate)
      invariant (forall i :: 0 <= i < n ==> !data[i].Weight?) ==> instance.weight == old(instance.weight)
      invariant (forall i :: 0 <= i < n ==> !data[i].Height?) ==> instance.height == old(instance.height)
    {
      match data[n]
      case BirthDate(d) => instance.birthDate := d;
      case Weight(w) => instance.weight := w;
      case Height(h) => instance.height := h;
    }
  }

  /** One entry of the validated user data that `UserUpdateSerializer`
      passes on to the generic model update. */
  datatype UserField = Email(email: string) | FirstName(first: string) | LastName(last: string) | Conditions(ids: set<int>)

  predicate SameUserKey(a: UserField, b: UserField) {
    (a.Email? && b.Email?) || (a.FirstName? && b.FirstName?) || (a.LastName? && b.LastName?)
    || (a.Conditions? && b.Conditions?)
  }

  predicate DistinctUserKeys(data: seq<UserField>) {
    forall i, j :: 0 <= i < j < |data| ==> !SameUserKey(data[i], data[j])
  }

  /** The generic model update (`ModelSerializer.update`): each attribute in
      `data` is assigned, many-to-many `conditions` replaced as a set. */
  method ApplyUserFields(user: HealthlogModels.User, data: seq<UserField>)
    requires DistinctUserKeys(data)
    modifies user
    ensures forall i :: 0 <= i < |data| && data[i].Email? ==> user.email == data[i].email
    ensures forall i :: 0 <= i < |data| && data[i].FirstName? ==> user.firstName == data[i].first
    ensures forall i :: 0 <= i < |data| && data[i].LastName? ==> user.lastName == data[i].last
    ensures forall i :: 0 <= i < |data| && data[i].Conditions? ==> user.conditions == data[i].ids
    ensures (forall i :: 0 <= i < |data| ==> !data[i].Email?) ==> user.email == old(user.email)
    ensures (forall i :: 0 <= i < |data| ==> !data[i].FirstName?) ==> user.firstName == old(user.firstName)
    ensures (forall i :: 0 <= i < |data| ==> !data[i].LastName?) ==> user.lastName == old(user.lastName)
    ensures (forall i :: 0 <= i < |data| ==> !data[i].Conditions?) ==> user.conditions == old(user.conditions)
    ensures user.isActive == old(user.isActive) && user.isAdmin == old(user.isAdmin)
    ensures user.isAnalyst == old(user.isAnalyst) && user.infoId == old(user.infoId)
    ensures user.password == old(user.password)
  {
    for n := 0 to |data|
      invariant forall i :: 0 <= i < n && data[i].Email? ==> user.email == data[i].email
      invariant forall i :: 0 <= i < n && data[i].FirstName? ==> user.firstName == data[i].first
      invariant forall i :: 0 <= i < n && data[i].LastName? ==> user.lastName == data[i].last
      invariant forall i :: 0 <= i < n && data[i].Conditions? ==> user.conditions == data[i].ids
      invariant (forall i :: 0 <= i < n ==> !data[i].Email?) ==> user.email == old(user.email)
      invariant (forall i :: 0 <= i < n ==> !data[i].FirstName?) ==> user.firstName == old(user.firstName)
      invariant (forall i :: 0 <= i < n ==> !data[i].LastName?) ==> user.lastName == old(user.lastName)
      invariant (forall i :: 0 <= i < n ==> !data[i].Conditions?) ==> user.conditions == old(user.conditions)
      invariant user.isActive == old(user.isActive) && user.isAdmin == old(user.isAdmin)
      invariant user.isAnalyst == old(user.isAnalyst) && user.infoId == old(user.infoId)
      invariant user.password == old(user.password)
    {
      match data[n]
      case Email(e) => user.email := e;
      case FirstName(f) => user.firstName := f;
      case LastName(l) => user.lastName := l;
      case Conditions(c) => user.conditions := c;
    }
  }

  /** `UserUpdateSerializer.update`. `info` is the user's related info
      record (`None` when it has none) and `infoData` the popped `info` dict,
      empty when it was not given. The info record is changed only when
      `infoData` is non-empty; a user without info then fails, before the
      user is touched, on the `getattr(None, key)` that `save_fields`
      evaluates for the dict's first key. */
  method UpdateUser(user: HealthlogModels.User, info: HealthlogModels.Info?,
                    infoData: seq<InfoField>, data: seq<UserField>)
    returns (r: Outcome<AttributeError>)
    requires info == null <==> user.infoId == None
    requires info != null ==> user.infoId == Some(info.pk)
    requires DistinctInfoKeys(infoData) && DistinctUserKeys(data)
    modifies user, info
    ensures r.Fail? <==> infoData != [] && info == null
    ensures r.Fail? ==> r.error == AttributeError(InfoKey(infoData[0])) && unchanged(user)
    ensures infoData == [] && info != null ==> unchanged(info)
    ensures infoData != [] && info != null ==>
      forall i :: 0 <= i < |infoData| && infoData[i].Weight? ==> info.weight == infoData[i].weight
    ensures r.Pass? ==>
      (forall i :: 0 <= i < |data| && data[i].Email? ==> user.email == data[i].email)
      && ((forall i :: 0 <= i < |data| ==> !data[i].Email?) ==> user.email == old(user.email))
      && user.infoId == old(user.infoId) && user.password == old(user.password)
  {
    if infoData != [] {
      if info == null {
        return Fail(AttributeError(InfoKey(infoData[0])));
      }
      SaveFields(info, infoData);
    }
    ApplyUserFields(user, data);
    return Pass;
  }

  // ------------------------------------------------------------- ailments

  const UnknownAilment := "Ailment with the given ID does not exist."

  /** `StatusSerializer.validate_ailment`: the ailment with the given id, or
      a validation error when there is none. */
  function ValidateAilment(value: int, ailments: seq<HealthlogModels.Ailment>)
    : (r: Result<HealthlogModels.Ailment, ValidationError>)
    ensures r.Ok? <==> exists a :: a in ailments && a.pk == value
    ensures r.Ok? ==> r.value in ailments && r.value.pk == value
    ensures r.Err? ==> r.error == ValidationError(UnknownAilment, None)
  {
    if ailments == [] then Err(ValidationError(UnknownAilment, None))
    else if ailments[0].pk == value then Ok(ailments[0])
    else ValidateAilment(value, ailments[1..])
  }

  // ------------------------------------------------------- nutrient totals

  /** The four totals `LogDetailSerializer` reports. */
  datatype Nutrient = Calories | Carbohydrates | Proteins | Fats

  /** The food column each total reads (`proteins` reads `protein`). */
  function Amount(f: HealthlogModels.Food, n: Nutrient): nat {
    match n
    case Calories => f.calories
    case Carbohydrates => f.carbohydrates
    case Proteins => f.protein
    case Fats => f.fats
  }

  /** The sum of a nutrient over meals, each meal counted once. */
  function Total(meals: seq<HealthlogModels.Meal>, n: Nutrient): nat {
    if meals == [] then 0 else Total(meals[..|meals| - 1], n) + Amount(meals[|meals| - 1].food, n)
  }

  /** `get_calories`, `get_carbohydrates`, `get_proteins` and `get_fats`:
      add the food's amount of the nutrient for every meal of the log. */
  method NutrientTotal(meals: seq<HealthlogModels.Meal>, n: Nutrient) returns (total: nat)
    ensures total == Total(meals, n)
    ensures meals == [] ==> total == 0
  {
    total := 0;
    for i := 0 to |meals|
      invariant total == Total(meals[..i], n)
    {
      assert meals[..i + 1][..i] == meals[..i];
      total := total + Amount(meals[i].food, n);
    }
    assert meals[..|meals|] == meals;
  }

  lemma {:induction false} TotalAppend(a: seq<HealthlogModels.Meal>, b: seq<HealthlogModels.Meal>, n: Nutrient)
    ensures Total(a + b, n) == Total(a, n) + Total(b, n)
    decreases |b|
  {
    if b == [] {
      assert a + b == a;
    } else {
      assert (a + b)[..|a + b| - 1] == a + b[..|b| - 1];
      TotalAppend(a, b[..|b| - 1], n);
    }
  }

  /** The total is a sum over single meals, whatever their order. */
  lemma {:induction false} TotalSumsMeals(meals: seq<HealthlogModels.Meal>, i: nat, n: Nutrient)
    requires i < |meals|
    ensures Total(meals, n) == Total(meals[..i] + meals[i + 1..], n) + Amount(meals[i].food, n)
  {
    assert meals == meals[..i] + [meals[i]] + meals[i + 1..];
    TotalAppend(meals[..i] + [meals[i]], meals[i + 1..], n);
    TotalAppend(meals[..i], [meals[i]], n);
    TotalAppend(meals[..i], meals[i + 1..], n);
    assert [meals[i]][..0] == [];
  }

  /** A meal's `count` plays no part in the totals. */
  lemma {:induction false} TotalIgnoresCount(meals: seq<HealthlogModels.Meal>, counts: seq<nat>, n: Nutrient)
    requires |counts| == |meals|
    ensures Total(seq(|meals|, i requires 0 <= i < |meals| => meals[i].(count := counts[i])), n) == Total(meals, n)
    decreases |meals|
  {
    if meals != [] {
      var k := |meals| - 1;
      var recounted := seq(|meals|, i requires 0 <= i < |meals| => meals[i].(count := counts[i]));
      TotalIgnoresCount(meals[..k], counts[..k], n);
      assert recounted[..k] == seq(k, i requires 0 <= i < k => meals[..k][i].(count := counts[..k][i]));
    }
  }

  /** Every meal's amount is part of the total. */
  lemma {:induction false} TotalCoversMeal(meals: seq<HealthlogModels.Meal>, i: nat, n: Nutrient)
    requires i < |meals|
    ensures Amount(meals[i].food, n) <= Total(meals, n)
  {
    TotalSumsMeals(meals, i, n);
  }

  // ----------------------------------------------------------- registration

  const EmailTaken := "Account with email already exists."

  /** `RegistrationSerializer.validate_email`: an address already held by a
      user is refused; any other is returned unchanged. */
  function ValidateEmail(value: string, existing: set<string>): (r: Result<string, ValidationError>)
    ensures r.Err? <==> value in existing
    ensures r.Ok? ==> r.value == value
  {
    if value in existing then Err(ValidationError(EmailTaken, None)) else Ok(value)
  }

  datatype Registration = Registration(
    email: string, firstName: string, lastName: string, password: string,
    height: int, weight: int, birthDate: Dates.Date)

  /** `RegistrationSerializer.create`: inside one transaction, an info record
      with exactly the given birth date, weight and height (key `infoPk`,
      given by the database) and a user pointing at it, with the given names
      and a password hashed from the given one. A negative weight or height
      is refused by the column constraint and nothing is created. */
  method CreateRegistration(data: Registration, infoPk: int)
    returns (r: Result<(HealthlogModels.User, HealthlogModels.Info), IntegrityError>)
    ensures r.Err? <==> data.weight < 0 || data.height < 0
    ensures r.Ok? ==>
      var (user, info) := r.value;
      && fresh(user) && fresh(info)
      && info.pk == infoPk && info.birthDate == data.birthDate
      && info.weight == data.weight && info.height == data.height
      && user.email == data.email && user.firstName == data.firstName && user.lastName == data.lastName
      && user.infoId == Some(infoPk) && user.password == HealthlogModels.Hashed(data.password)
      && user.isActive && !user.isAdmin && !user.isAnalyst && user.IsConsumer()
  {
    if data.weight < 0 {
      return Err(IntegrityError("weight"));
    }
    if data.height < 0 {
      return Err(IntegrityError("height"));
    }
    var info := new HealthlogModels.Info(infoPk, data.birthDate, data.weight, data.height);
    var user := new HealthlogModels.User(data.email);
    user.firstName, user.lastName := data.firstName, data.lastName;
    user.infoId := Some(info.pk);
    user.SetPassword(Some(data.password));
    return Ok((user, info));
  }
}
