/** The user record of the server app (server/core/models.py) and its
    manager. The app's other records add only `str()` formats, which are
    not modelled. */
module ServerModels {
  import opened Wrappers
  import HealthlogModels

  type Password = HealthlogModels.Password
  type ValueError = HealthlogModels.ValueError

  class User {
    var email: string
    var firstName: string
    var lastName: string
    var isActive: bool
    var isAdmin: bool
    var isAnalyst: bool
    var conditions: set<int>
    var infoId: Option<int>
    var password: Password

    constructor (email: string)
      ensures this.email == email && firstName == "" && lastName == ""
      ensures isActive && !isAdmin && !isAnalyst
      ensures conditions == {} && infoId == None && password == HealthlogModels.Unusable
    {
      this.email := email;
      firstName, lastName := "", "";
      isActive, isAdmin, isAnalyst := true, false, false;
      conditions := {};
      infoId := None;
      password := HealthlogModels.Unusable;
    }

    /** `full_name`: first name, a space, last name. */
    function FullName(): (s: string)
      reads this
      ensures |s| == |firstName| + 1 + |lastName|
      ensures s[..|firstName|] == firstName && s[|firstName|] == ' '
      ensures s[|firstName| + 1..] == lastName
    {
      firstName + " " + lastName
    }

    /** `str(user)`: `<email> (<full name>)`; the e-mail and the full name
        can be read back from it. */
    function Label(): (s: string)
      reads this
      ensures |s| == |email| + |FullName()| + 3
      ensures s[..|email|] == email && s[|email|..|email| + 2] == " ("
      ensures s[|email| + 2..|s| - 1] == FullName() && s[|s| - 1] == ')'
    {
      email + " (" + FullName() + ")"
    }

    predicate IsStaff()
      reads this
      ensures IsStaff() <==> isAdmin
    {
      isAdmin
    }

    predicate IsConsumer()
      reads this
      ensures IsConsumer() <==> infoId != None
    {
      infoId.Some?
    }

    predicate HasPerm(perm: string)
      reads this
      ensures HasPerm(perm)
    {
      true
    }

    predicate HasModulePerms(appLabel: string)
      reads this
      ensures HasModulePerms(appLabel)
    {
      true
    }

    method SetPassword(raw: Option<string>)
      modifies this
      ensures password == HealthlogModels.PasswordFrom(raw)
      ensures email == old(email) && firstName == old(firstName) && lastName == old(lastName)
      ensures isActive == old(isActive) && isAdmin == old(isAdmin) && isAnalyst == old(isAnalyst)
      ensures conditions == old(conditions) && infoId == old(infoId)
    {
      password := HealthlogModels.PasswordFrom(raw);
    }
  }

  method CreateUser(email: Option<string>, password: Option<string>, normalize: string -> string)
    returns (r: Result<User, ValueError>)
    ensures r.Err? <==> !HealthlogModels.Truthy(email)
    ensures r.Ok? ==> fresh(r.value)
    ensures r.Ok? ==> r.value.email == normalize(email.value)
    ensures r.Ok? ==> r.value.password == HealthlogModels.PasswordFrom(password)
    ensures r.Ok? ==> r.value.isActive && !r.value.isAdmin && !r.value.isAnalyst
    ensures r.Ok? ==> r.value.infoId == None && r.value.conditions == {}
  {
    if !HealthlogModels.Truthy(email) {
      return Err(HealthlogModels.ValueError("Users must have an email address"));
    }
    var user := new User(normalize(email.value));
    user.SetPassword(password);
    return Ok(user);
  }

  method CreateSuperuser(email: Option<string>, password: Option<string>, normalize: string -> string)
    returns (r: Result<User, ValueError>)
    ensures r.Err? <==> !HealthlogModels.Truthy(email)
    ensures r.Ok? ==> fresh(r.value)
    ensures r.Ok? ==> r.value.email == normalize(email.value)
    ensures r.Ok? ==> r.value.password == HealthlogModels.PasswordFrom(password)
    ensures r.Ok? ==> r.value.isAdmin && r.value.IsStaff() && r.value.isActive && !r.value.isAnalyst
  {
    r := CreateUser(email, password, normalize);
    if r.Ok? {
      r.value.isAdmin := true;
    }
  }
}
