/** The sign-up page: it remembers its three inputs, submits their text as a registration,
    stores the user that comes back and returns home, or lists the errors. */
module Register {
  import opened Base
  import opened Ui
  import opened Forms
  import Api
  import Routes

  datatype In =
    | UsernameInput(input: Element)
    | EmailInput(input: Element)
    | PasswordInput(input: Element)
    | Submit
    | RegistrationSuccess(user: Api.User)
    | RegistrationFailure(errors: seq<string>)

  /** Asynchronous work: the registration request, or a message delivered on a later turn. */
  datatype Task = Call(request: Api.Request) | Deliver(msg: In)

  type RegisterEffect = Effect<Out, Task>

  /** The message the registration request completes with: the user, or its error lines. */
  function OnRegistered(response: Result<Api.User, Api.Error>): (m: In)
    ensures response.Ok? <==> m.RegistrationSuccess?
    ensures response.Ok? ==> m.user == response.value
    ensures response.Err? ==> m == RegistrationFailure(Api.ErrorLines(response.error))
  {
    match response
    case Ok(user) => RegistrationSuccess(user)
    case Err(e) => RegistrationFailure(Api.ErrorLines(e))
  }

  class Register {
    var usernameInput: Option<Element>
    var emailInput: Option<Element>
    var passwordInput: Option<Element>

    /** No inputs built yet. */
    constructor ()
      ensures usernameInput == None && emailInput == None && passwordInput == None
    {
      usernameInput := None;
      emailInput := None;
      passwordInput := None;
    }

    function Inputs(): set<object>
      reads this
    {
      Handle(usernameInput) + Handle(emailInput) + Handle(passwordInput)
    }

    /** The registration the form holds: each field as its input's text reads. */
    function GetRegistration(): (reg: Api.UserRegistration)
      reads this, Inputs()
      ensures reg.username == InputText(usernameInput)
      ensures reg.email == InputText(emailInput)
      ensures reg.password == InputText(passwordInput)
    {
      Api.UserRegistration(InputText(emailInput), InputText(usernameInput), InputText(passwordInput))
    }

    /** `written` is the outcome of the session-store write, consulted on success only. */
    method Update(msg: In, written: Outcome) returns (effects: seq<RegisterEffect>)
      modifies this
      ensures msg.UsernameInput? ==>
        usernameInput == Some(msg.input) && emailInput == old(emailInput)
        && passwordInput == old(passwordInput) && effects == []
      ensures msg.EmailInput? ==>
        emailInput == Some(msg.input) && usernameInput == old(usernameInput)
        && passwordInput == old(passwordInput) && effects == []
      ensures msg.PasswordInput? ==>
        passwordInput == Some(msg.input) && usernameInput == old(usernameInput)
        && emailInput == old(emailInput) && effects == []
      ensures !(msg.UsernameInput? || msg.EmailInput? || msg.PasswordInput?) ==> unchanged(this)
      // Submitting sends the form's current registration to the users endpoint.
      ensures msg.Submit? ==> effects == [Spawn(Call(Api.RegisterUserRequest(GetRegistration())))]
      // A registered user is stored; then the page goes home, or the store's error is shown.
      ensures msg.RegistrationSuccess? ==>
        && |effects| == 2
        && effects[0] == WriteUser(msg.user)
        && (written.Pass? ==> effects[1] == SetHash(Routes.AsHash(Routes.Home)) && Routes.AsHash(Routes.Home) == "/")
        && (written.Fail? ==> effects[1] == Spawn(Deliver(RegistrationFailure([written.message]))))
      ensures msg.RegistrationFailure? ==> effects == Sends(ErrorOuts(msg.errors))
    {
      match msg
      case UsernameInput(input) =>
        usernameInput := Some(input);
        effects := [];
      case EmailInput(input) =>
        emailInput := Some(input);
        effects := [];
      case PasswordInput(input) =>
        passwordInput := Some(input);
        effects := [];
      case Submit =>
        var registration := GetRegistration();
        effects := [Spawn(Call(Api.RegisterUserRequest(registration)))];
      case RegistrationSuccess(user) =>
        effects := [WriteUser(user)];
        if written.Pass? {
          effects := effects + [SetHash(Routes.AsHash(Routes.Home))];
        } else {
          effects := effects + [Spawn(Deliver(RegistrationFailure([written.message])))];
        }
      case RegistrationFailure(errors) =>
        effects := [Send(Error(RemoveAll))];
        for i := 0 to |errors|
          invariant |effects| == i + 1
          invariant forall j :: 0 <= j < |effects| ==> effects[j] == Send(ErrorOuts(errors)[j])
        {
          effects := effects + [Send(Error(PushBack(ErrorItem(errors[i]))))];
        }
        assert effects == Sends(ErrorOuts(errors));
    }
  }
}
