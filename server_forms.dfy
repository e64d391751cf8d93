/** The admin user forms of the server app (server/core/forms.py). They
    repeat the rules of the health-log app's admin forms; the lemmas at the
    end say that both copies decide alike. */
module ServerForms {
  import opened Wrappers
  import HealthlogModels
  import HealthlogForms
  import ServerModels

  type ValidationError = HealthlogForms.ValidationError
  type KeyError = HealthlogForms.KeyError

  /** `UserCreationForm.clean_password_two`. */
  function CleanPasswordTwo(passwordOne: Option<string>, passwordTwo: Option<string>)
    : (r: Result<Option<string>, ValidationError>)
    ensures r.Err? <==>
      HealthlogModels.Truthy(passwordOne) && HealthlogModels.Truthy(passwordTwo) && passwordOne != passwordTwo
    ensures r.Ok? ==> r.value == passwordTwo
  {
    if passwordOne.Some? && passwordOne.value != "" && passwordTwo.Some? && passwordTwo.value != ""
       && passwordOne.value != passwordTwo.value
    then Err(HealthlogForms.ValidationError("Passwords don't match"))
    else Ok(passwordTwo)
  }

  /** `UserCreationForm.save`: the password is set from `password_one`. */
  method SaveCreation(email: string, firstName: string, lastName: string, isAnalyst: bool, passwordOne: string)
    returns (user: ServerModels.User)
    ensures fresh(user)
    ensures user.email == email && user.firstName == firstName && user.lastName == lastName
    ensures user.isAnalyst == isAnalyst && user.password == HealthlogModels.Hashed(passwordOne)
    ensures user.isActive && !user.isAdmin
  {
    user := new ServerModels.User(email);
    user.firstName, user.lastName, user.isAnalyst := firstName, lastName, isAnalyst;
    user.SetPassword(Some(passwordOne));
  }

  /** `UserChangeForm.clean_password`: the initial value, never the submitted one. */
  function CleanPassword(initial: map<string, string>, submitted: Option<string>): (r: Result<string, KeyError>)
    ensures r.Ok? <==> "password" in initial
    ensures r.Ok? ==> r.value == initial["password"]
  {
    if "password" in initial then Ok(initial["password"]) else Err(HealthlogForms.KeyError("password"))
  }

  /** Both apps reject exactly the same password pairs with the same message. */
  lemma CleanPasswordTwoAgrees(passwordOne: Option<string>, passwordTwo: Option<string>)
    ensures CleanPasswordTwo(passwordOne, passwordTwo) == HealthlogForms.CleanPasswordTwo(passwordOne, passwordTwo)
  {
  }

  lemma CleanPasswordAgrees(initial: map<string, string>, submitted: Option<string>)
    ensures CleanPassword(initial, submitted) == HealthlogForms.CleanPassword(initial, submitted)
  {
  }
}
