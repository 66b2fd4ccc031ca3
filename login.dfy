/** The sign-in page: it remembers its two inputs, submits their text as credentials,
    stores the user that comes back under the key "user" and returns home, or lists the errors. */
module Login {
  import opened Base
  import opened Ui
  import opened Forms
  import Api
  import Routes

  datatype In =
    | EmailInput(input: Element)
    | PasswordInput(input: Element)
    | Submit
    | LoginSuccess(user: Api.User)
    | LoginFailure(errors: seq<string>)

  /** Asynchronous work: the sign-in request, or a message delivered on a later turn. */
  datatype Task = Call(request: Api.Request) | Deliver(msg: In)

  type LoginEffect = Effect<Out, Task>

  /** The message the sign-in request completes with: the user, or its error lines. */
  function OnAuthenticated(response: Result<Api.User, Api.Error>): (m: In)
    ensures response.Ok? <==> m.LoginSuccess?
    ensures response.Ok? ==> m.user == response.value
    ensures response.Err? ==> m == LoginFailure(Api.ErrorLines(response.error))
  {
    match response
    case Ok(user) => LoginSuccess(user)
    case Err(e) => LoginFailure(Api.ErrorLines(e))
  }

  class Login {
    var emailInput: Option<Element>
    var passwordInput: Option<Element>

    /** No inputs built yet. */
    constructor ()
      ensures emailInput == None && passwordInput == None
    {
      emailInput := None;
      passwordInput := None;
    }

    function Inputs(): set<object>
      reads this
    {
      Handle(emailInput) + Handle(passwordInput)
    }

    /** The credentials the form holds: no username, email and password as their inputs'
        text reads. */
    function GetLogin(): (login: Api.UserRegistration)
      reads this, Inputs()
      ensures login.username == None
      ensures login.email == InputText(emailInput)
      ensures login.password == InputText(passwordInput)
    {
      Api.UserRegistration(InputText(emailInput), None, InputText(passwordInput))
    }

    /** `written` is the outcome of the session-store write, consulted on success only. */
    method Update(msg: In, written: Outcome) returns (effects: seq<LoginEffect>)
      modifies this
      ensures msg.EmailInput? ==>
        emailInput == Some(msg.input) && passwordInput == old(passwordInput) && effects == []
      ensures msg.PasswordInput? ==>
        passwordInput == Some(msg.input) && emailInput == old(emailInput) && effects == []
      ensures !(msg.EmailInput? || msg.PasswordInput?) ==> unchanged(this)
      // Submitting sends the form's current credentials to the sign-in endpoint.
      ensures msg.Submit? ==> effects == [Spawn(Call(Api.AuthUserRequest(GetLogin())))]
      // A signed-in user is stored under "user"; then the page goes home, or the store's
      // error is shown.
      ensures msg.LoginSuccess? ==>
        && |effects| == 2
        && effects[0] == WriteItem("user", msg.user)
        && (written.Pass? ==> effects[1] == SetHash(Routes.AsHash(Routes.Home)) && Routes.AsHash(Routes.Home) == "/")
        && (written.Fail? ==> effects[1] == Spawn(Deliver(LoginFailure([written.message]))))
      ensures msg.LoginFailure? ==> effects == Sends(ErrorOuts(msg.errors))
    {
      match msg
      case EmailInput(input) =>
        emailInput := Some(input);
        effects := [];
      case PasswordInput(input) =>
        passwordInput := Some(input);
        effects := [];
      case Submit =>
        var login := GetLogin();
        effects := [Spawn(Call(Api.AuthUserRequest(login)))];
      case LoginSuccess(user) =>
        effects := [WriteItem("user", user)];
        if written.Pass? {
          effects := effects + [SetHash(Routes.AsHash(Routes.Home))];
        } else {
          effects := effects + [Spawn(Deliver(LoginFailure([written.message])))];
        }
      case LoginFailure(errors) =>
        effects := [Send(Error(RemoveAll))];
        for i := 0 to |errors|
          invariant |effects| == i + 1
          invariant forall j :: 0 <= j < |effects| ==> effects[j] == Send(ErrorOuts(errors)[j])
        {
          effects := effects + [Send(Error(PushBack(ErrorItem(errors[i]))))];
        }
        assert effects == Sends(ErrorOuts(errors));
    }
  }
}
