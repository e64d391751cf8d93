/** The records of the health-log app (healthlog/core/models.py): users and
    their manager, biometric info, conditions, ailments, foods, daily logs,
    meals and tickets. Records that other records point to are referred to by
    primary key. */
module HealthlogModels {
  import opened Wrappers
  import Text
  import Dates

  /** What `set_password` leaves on a user: hashing itself is not modelled,
      only which raw password the hash was made from; `None` makes the
      password unusable. */
  datatype Password = Unusable | Hashed(raw: string)

  function PasswordFrom(raw: Option<string>): (p: Password)
    ensures p.Hashed? <==> raw.Some?
    ensures p.Hashed? ==> p.raw == raw.value
  {
    match raw
    case None => Unusable
    case Some(r) => Hashed(r)
  }

  /** `ValueError` raised by the user manager. */
  datatype ValueError = ValueError(message: string)

  /** Python truthiness of an optional string argument: `None` and `''` are false. */
  predicate Truthy(s: Option<string>) {
    s.Some? && s.value != ""
  }

  class Info {
    const pk: int
    var birthDate: Dates.Date
    var weight: nat
    var height: nat

    constructor (pk: int, birthDate: Dates.Date, weight: nat, height: nat)
      ensures this.pk == pk && this.birthDate == birthDate
      ensures this.weight == weight && this.height == height
    {
      this.pk := pk;
      this.birthDate := birthDate;
      this.weight := weight;
      this.height := height;
    }

    /** `str(info)`: `<birth date> <weight>lb <height>in`. */
    function Label(): (s: string)
      reads this
      requires Dates.Valid(birthDate)
      ensures var w := |Text.NatToString(weight)|;
        && |s| == w + |Text.NatToString(height)| + 16
        && s[..10] == Dates.IsoFormat(birthDate) && s[10] == ' '
        && Text.AllDigits(s[11..11 + w]) && Text.DigitsValue(s[11..11 + w]) == weight
        && s[11 + w..14 + w] == "lb "
        && Text.AllDigits(s[14 + w..|s| - 2]) && Text.DigitsValue(s[14 + w..|s| - 2]) == height
        && s[|s| - 2..] == "in"
    {
      var iso := Dates.IsoFormat(birthDate);
      var w := Text.NatToString(weight);
      var h := Text.NatToString(height);
      Text.NatToStringRoundTrip(weight);
      Text.NatToStringRoundTrip(height);
      InfoLabelParts(iso, w, h);
      iso + " " + w + "lb " + h + "in"
    }
  }

  /** Where the parts of `str(info)` sit. */
  lemma InfoLabelParts(iso: string, w: string, h: string)
    requires |iso| == 10
    ensures var s := iso + " " + w + "lb " + h + "in";
      && |s| == |w| + |h| + 16
      && s[..10] == iso && s[10] == ' ' && s[11..11 + |w|] == w && s[11 + |w|..14 + |w|] == "lb "
      && s[14 + |w|..|s| - 2] == h && s[|s| - 2..] == "in"
  {
    var s := iso + " " + w + "lb " + h + "in";
    assert s[..10] == iso;
    assert s[11..11 + |w|] == w;
    assert s[11 + |w|..14 + |w|] == "lb ";
    assert s[14 + |w|..|s| - 2] == h;
  }

  class User {
    var email: string
    var firstName: string
    var lastName: string
    var isActive: bool
    var isAdmin: bool
    var isAnalyst: bool
    var conditions: set<int>
    /** The `info_id` column: the primary key of the user's info, if any. */
    var infoId: Option<int>
    var password: Password

    /** `User(email=...)`: every other field takes its declared default. */
    constructor (email: string)
      ensures this.email == email && firstName == "" && lastName == ""
      ensures isActive && !isAdmin && !isAnalyst
      ensures conditions == {} && infoId == None && password == Unusable
    {
      this.email := email;
      firstName, lastName := "", "";
      isActive, isAdmin, isAnalyst := true, false, false;
      conditions := {};
      infoId := None;
      password := Unusable;
    }

    /** `full_name`: the first name, one space, the last name; the two
        parts can be read back from it. */
    function FullName(): (s: string)
      reads this
      ensures |s| == |firstName| + 1 + |lastName|
      ensures s[..|firstName|] == firstName && s[|firstName|] == ' '
      ensures s[|firstName| + 1..] == lastName
    {
      firstName + " " + lastName
    }

    /** `str(user)` is the full name, so both names read back from it. */
    function Label(): (s: string)
      reads this
      ensures |s| == |firstName| + 1 + |lastName|
      ensures s[..|firstName|] == firstName && s[|firstName|] == ' '
      ensures s[|firstName| + 1..] == lastName
    {
      FullName()
    }

    /** `is_staff`: staff status is exactly admin status. */
    predicate IsStaff()
      reads this
      ensures IsStaff() <==> isAdmin
    {
      isAdmin
    }

    /** `is_consumer`: the user has an info record. */
    predicate IsConsumer()
      reads this
      ensures IsConsumer() <==> infoId != None
    {
      infoId.Some?
    }

    /** `has_perm`: every user holds every permission. */
    predicate HasPerm(perm: string)
      reads this
      ensures HasPerm(perm)
    {
      true
    }

    /** `has_module_perms`: every user may see every app. */
    predicate HasModulePerms(appLabel: string)
      reads this
      ensures HasModulePerms(appLabel)
    {
      true
    }

    /** `set_password(raw)`: only the password changes. */
    method SetPassword(raw: Option<string>)
      modifies this
      ensures password == PasswordFrom(raw)
      ensures email == old(email) && firstName == old(firstName) && lastName == old(lastName)
      ensures isActive == old(isActive) && isAdmin == old(isAdmin) && isAnalyst == old(isAnalyst)
      ensures conditions == old(conditions) && infoId == old(infoId)
    {
      password := PasswordFrom(raw);
    }
  }

  /** `UserManager.create_user(email, password=None)`. `normalize_email` is
      passed in. */
  method CreateUser(email: Option<string>, password: Option<string>, normalize: string -> string)
    returns (r: Result<User, ValueError>)
    ensures r.Err? <==> !Truthy(email)
    ensures r.Ok? ==> fresh(r.value)
    ensures r.Ok? ==> r.value.email == normalize(email.value) && r.value.password == PasswordFrom(password)
    ensures r.Ok? ==> r.value.isActive && !r.value.isAdmin && !r.value.isAnalyst
    ensures r.Ok? ==> r.value.firstName == "" && r.value.lastName == ""
    ensures r.Ok? ==> r.value.infoId == None && r.value.conditions == {}
  {
    if !Truthy(email) {
      return Err(ValueError("Users must have an email address"));
    }
    var user := new User(normalize(email.value));
    user.SetPassword(password);
    return Ok(user);
  }

  /** `UserManager.create_superuser(email, password)`: a user made by
      `CreateUser` and then made an admin. */
  method CreateSuperuser(email: Option<string>, password: Option<string>, normalize: string -> string)
    returns (r: Result<User, ValueError>)
    ensures r.Err? <==> !Truthy(email)
    ensures r.Ok? ==> fresh(r.value)
    ensures r.Ok? ==> r.value.email == normalize(email.value) && r.value.password == PasswordFrom(password)
    ensures r.Ok? ==> r.value.isAdmin && r.value.IsStaff()
    ensures r.Ok? ==> r.value.isActive && !r.value.isAnalyst && r.value.infoId == None
  {
    r := CreateUser(email, password, normalize);
    if r.Ok? {
      r.value.isAdmin := true;
    }
  }

  datatype Condition = Condition(pk: int, name: string)

  datatype Ailment = Ailment(pk: int, name: string)

  /** Nutrient amounts are positive-integer columns, so never negative. */
  datatype Food = Food(pk: int, name: string, calories: nat, carbohydrates: nat, protein: nat, fats: nat)

  datatype Log = Log(pk: int, user: int, date: Dates.Date, ailments: set<int>)

  datatype MealTime = Breakfast | Lunch | Dinner | Snack

  /** The stored value of a meal-time choice. */
  function MealTimeValue(t: MealTime): (s: string)
    ensures s in {"BREAKFAST", "LUNCH", "DINNER", "SNACK"}
  {
    match t
    case Breakfast => "BREAKFAST"
    case Lunch => "LUNCH"
    case Dinner => "DINNER"
    case Snack => "SNACK"
  }

  datatype Meal = Meal(pk: int, log: int, time: MealTime, count: nat, food: Food)

  /** A meal made without a count gets the default count of one. */
  function NewMeal(pk: int, log: int, time: MealTime, food: Food): (m: Meal)
    ensures m.count == 1 && m.pk == pk && m.log == log && m.time == time && m.food == food
  {
    Meal(pk, log, time, 1, food)
  }

  /** A ticket's user is nullable: deleting the user keeps the ticket. */
  datatype Ticket = Ticket(pk: int, user: Option<int>, message: string)

  /** `str(log)`: `<owner's full name>: <date>`. */
  function LogLabel(log: Log, owner: User): (s: string)
    reads owner
    requires Dates.Valid(log.date)
    ensures |s| == |owner.FullName()| + 12
    ensures s[..|owner.FullName()|] == owner.FullName()
    ensures s[|owner.FullName()|..|owner.FullName()| + 2] == ": "
    ensures s[|s| - 10..] == Dates.IsoFormat(log.date)
  {
    var n := owner.FullName();
    var s := n + ": " + Dates.IsoFormat(log.date);
    assert s[..|n|] == n && s[|n|..|n| + 2] == ": ";
    s
  }

  /** `str(meal)`: `<log> - <time> <food name>`. */
  function MealLabel(meal: Meal, log: Log, owner: User): (s: string)
    reads owner
    requires Dates.Valid(log.date)
    ensures var l := |LogLabel(log, owner)|;
      var t := MealTimeValue(meal.time);
      && |s| == l + 3 + |t| + 1 + |meal.food.name|
      && s[..l] == LogLabel(log, owner)
      && s[l..l + 3] == " - " && s[l + 3..l + 3 + |t|] == t && s[l + 3 + |t|] == ' '
      && s[|s| - |meal.food.name|..] == meal.food.name
  {
    var l := LogLabel(log, owner);
    var t := MealTimeValue(meal.time);
    var s := l + " - " + t + " " + meal.food.name;
    assert s[..|l|] == l && s[|l|..|l| + 3] == " - " && s[|l| + 3..|l| + 3 + |t|] == t;
    assert s[|s| - |meal.food.name|..] == meal.food.name;
    s
  }
}
