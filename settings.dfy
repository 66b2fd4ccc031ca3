/** The settings page: five text inputs showing the signed-in user's picture, name, bio,
    email and a new password; it refreshes the user from the server, submits changes,
    lists errors, and signs out. */
module Settings {
  import opened Base
  import opened Ui
  import opened Forms
  import opened Widgets
  import Api
  import Routes

  datatype In =
    | GotUser(user: Api.User)
    | Submit
    | UpdateSuccess(user: Api.User)
    | UpdateFailure(errors: seq<string>)
    | Logout

  /** The five child inputs. */
  datatype Slot = Pic | Name | Bio | Email | Password

  /** A message on the page's own output channel, or one sent to a child input. */
  datatype Outgoing = Emit(out: Out) | ToInput(slot: Slot, msg: TextInputIn)

  /** Asynchronous work: fetching the current user, or the update request. */
  datatype Task = FetchUser(token: string) | Call(request: Api.Request)

  type SettingsEffect = Effect<Outgoing, Task>

  /** The message the update request completes with: the updated user, or its error lines. */
  function OnUpdated(response: Result<Api.User, Api.Error>): (m: In)
    ensures response.Ok? <==> m.UpdateSuccess?
    ensures response.Ok? ==> m.user == response.value
    ensures response.Err? ==> m == UpdateFailure(Api.ErrorLines(response.error))
  {
    match response
    case Ok(user) => UpdateSuccess(user)
    case Err(e) => UpdateFailure(Api.ErrorLines(e))
  }

  /** What a user record puts into each input: picture and bio when present, name and
      email always, the password never. */
  function SlotValue(user: Api.User, slot: Slot): Option<string> {
    match slot
    case Pic => user.image
    case Bio => user.bio
    case Name => Some(user.username)
    case Email => Some(user.email)
    case Password => None
  }

  /** The messages `set_user` sends to the inputs: each slot receives the user's value for
      it, when there is one, and nothing else. */
  function SetUserSends(user: Api.User): (sends: seq<SettingsEffect>)
    ensures forall i :: 0 <= i < |sends| ==> sends[i].Send? && sends[i].out.ToInput? && sends[i].out.msg.SetValue?
    ensures forall s: Slot, v: string :: Send(ToInput(s, SetValue(v))) in sends <==> SlotValue(user, s) == Some(v)
  {
    (if user.image.Some? then [Send(ToInput(Pic, SetValue(user.image.value)))] else [])
    + (if user.bio.Some? then [Send(ToInput(Bio, SetValue(user.bio.value)))] else [])
    + [Send(ToInput(Name, SetValue(user.username))), Send(ToInput(Email, SetValue(user.email)))]
  }

  /** The update a submission carries: email, name, bio and picture always, possibly empty;
      the password only when one was typed. */
  function SubmittedUpdate(email: string, username: string, bio: string, image: string, password: string): (u: Api.UserUpdate)
    ensures u.email == Some(email) && u.username == Some(username)
    ensures u.bio == Some(bio) && u.image == Some(image)
    ensures u.password.None? <==> password == ""
    ensures u.password.Some? ==> u.password.value == password
  {
    Api.UserUpdate(Some(email), Some(username), Some(bio), Some(image),
                   if password == "" then None else Some(password))
  }

  /** A submission always carries the email, name, bio and picture, so it is never the
      empty `UserUpdate::default`. */
  lemma SubmissionNeverEmpty(email: string, username: string, bio: string, image: string, password: string)
    ensures SubmittedUpdate(email, username, bio, image, password) != Api.NoUpdate
    ensures Api.NoUpdate.email.None? && Api.NoUpdate.username.None? && Api.NoUpdate.bio.None?
    ensures Api.NoUpdate.image.None? && Api.NoUpdate.password.None?
  {}

  function Emits(outs: seq<Out>): (outgoing: seq<Outgoing>)
    ensures |outgoing| == |outs|
    ensures forall i :: 0 <= i < |outs| ==> outgoing[i] == Emit(outs[i])
  {
    Map(o => Emit(o), outs)
  }

  /** The `UpdateFailure` arm: clear the error list, then send one item per error, in order. */
  method ShowErrors(errors: seq<string>) returns (effects: seq<SettingsEffect>)
    ensures effects == Sends(Emits(ErrorOuts(errors)))
  {
    effects := [Send(Emit(Error(RemoveAll)))];
    for i := 0 to |errors|
      invariant |effects| == i + 1
      invariant forall j :: 0 <= j < |effects| ==> effects[j] == Send(Emit(ErrorOuts(errors)[j]))
    {
      effects := effects + [Send(Emit(Error(PushBack(ErrorItem(errors[i])))))];
    }
    assert effects == Sends(Emits(ErrorOuts(errors)));
  }

  class Settings {
    var oUser: Option<Api.User>
    const picInput: TextInput
    const nameInput: TextInput
    const bioInput: TextInput
    const emailInput: TextInput
    const passwordInput: TextInput

    /** Five empty, unattached inputs and no user. */
    constructor Empty()
      ensures oUser == None
      ensures fresh(picInput) && fresh(nameInput) && fresh(bioInput) && fresh(emailInput) && fresh(passwordInput)
      ensures picInput.oInput == None && picInput.value == "" && picInput.placeholder == "URL of profile picture"
      ensures nameInput.oInput == None && nameInput.value == "" && nameInput.placeholder == "Your name"
      ensures bioInput.oInput == None && bioInput.value == "" && bioInput.placeholder == "Short bio about you"
      ensures emailInput.oInput == None && emailInput.value == "" && emailInput.placeholder == "Your email"
      ensures passwordInput.oInput == None && passwordInput.value == "" && passwordInput.placeholder == "Your password"
    {
      picInput := new TextInput("", "URL of profile picture");
      nameInput := new TextInput("", "Your name");
      bioInput := new TextInput("", "Short bio about you");
      emailInput := new TextInput("", "Your email");
      passwordInput := new TextInput("", "Your password");
      oUser := None;
    }

    /** `Settings::default`: empty inputs, then the stored user, if any, is set. */
    static method Default(stored: Option<Api.User>) returns (s: Settings, effects: seq<SettingsEffect>)
      ensures fresh(s)
      ensures s.oUser == stored
      ensures effects == (if stored.Some? then SetUserSends(stored.value) else [])
      ensures s.picInput.placeholder == "URL of profile picture" && s.nameInput.placeholder == "Your name"
      ensures s.bioInput.placeholder == "Short bio about you" && s.emailInput.placeholder == "Your email"
      ensures s.passwordInput.placeholder == "Your password"
      ensures s.picInput.value == s.nameInput.value == s.bioInput.value == s.emailInput.value == s.passwordInput.value == ""
      ensures s.picInput.oInput.None? && s.nameInput.oInput.None? && s.bioInput.oInput.None?
      ensures s.emailInput.oInput.None? && s.passwordInput.oInput.None?
    {
      s := new Settings.Empty();
      effects := [];
      if stored.Some? {
        effects := s.SetUser(stored.value);
      }
    }

    /** Shows the user's values in the inputs and remembers the user. */
    method SetUser(user: Api.User) returns (effects: seq<SettingsEffect>)
      modifies this
      ensures oUser == Some(user)
      ensures effects == SetUserSends(user)
    {
      effects := [];
      if user.image.Some? {
        effects := effects + [Send(ToInput(Pic, SetValue(user.image.value)))];
      }
      if user.bio.Some? {
        effects := effects + [Send(ToInput(Bio, SetValue(user.bio.value)))];
      }
      effects := effects + [Send(ToInput(Name, SetValue(user.username)))];
      effects := effects + [Send(ToInput(Email, SetValue(user.email)))];
      oUser := Some(user);
    }

    /** On binding, a signed-in page fetches the current user record; a signed-out one does
        nothing. */
    method Bind() returns (effects: seq<SettingsEffect>)
      ensures oUser.None? ==> effects == []
      ensures oUser.Some? ==> effects == [Spawn(FetchUser(oUser.value.token))]
    {
      effects := [];
      if oUser.Some? {
        effects := [Spawn(FetchUser(oUser.value.token))];
      }
    }

    method Update(msg: In) returns (effects: seq<SettingsEffect>)
      modifies this
      // A fetched user is shown and stored.
      ensures msg.GotUser? ==> oUser == Some(msg.user) && effects == SetUserSends(msg.user) + [WriteUser(msg.user)]
      // A submission needs a signed-in user; it sends the inputs' values with that user's token.
      ensures msg.Submit? ==> unchanged(this)
      ensures msg.Submit? && oUser.None? ==> effects == []
      ensures msg.Submit? && oUser.Some? ==>
        effects == [Spawn(Call(Api.UpdateUserRequest(
          SubmittedUpdate(emailInput.value, nameInput.value, bioInput.value, picInput.value, passwordInput.value),
          oUser.value.token)))]
      // An updated user is remembered and stored, and the page moves to the user's profile.
      ensures msg.UpdateSuccess? ==>
        && oUser == Some(msg.user)
        && effects == [WriteUser(msg.user), SetHash(Routes.AsHash(Routes.Profile(msg.user.username, false)))]
        && Routes.AsHash(Routes.Profile(msg.user.username, false)) == "/profile/" + msg.user.username
      ensures msg.UpdateFailure? ==> unchanged(this) && effects == Sends(Emits(ErrorOuts(msg.errors)))
      // Signing out deletes the stored user and goes home; the page keeps its own copy.
      ensures msg.Logout? ==> unchanged(this) && effects == [DeleteUser, SetHash(Routes.AsHash(Routes.Home))]
    {
      match msg
      case GotUser(user) =>
        effects := SetUser(user);
        effects := effects + [WriteUser(user)];
      case Submit =>
        var email := Some(emailInput.value);
        var password := if passwordInput.value == "" then None else Some(passwordInput.value);
        effects := [];
        if oUser.Some? {
          var update := Api.UserUpdate(email, Some(nameInput.value), Some(bioInput.value), Some(picInput.value), password);
          effects := [Spawn(Call(Api.UpdateUserRequest(update, oUser.value.token)))];
        }
      case UpdateSuccess(user) =>
        oUser := Some(user);
        effects := [WriteUser(user), SetHash(Routes.AsHash(Routes.Profile(user.username, false)))];
      case UpdateFailure(errors) =>
        effects := ShowErrors(errors);
      case Logout =>
        effects := [DeleteUser, SetHash(Routes.AsHash(Routes.Home))];
    }
  }
}
