# mogwai-realworld: a verified model of routing and the component state machines

mogwai-realworld is a "Conduit" (RealWorld) single-page client written in Rust with the
mogwai UI library. This project models the application-side logic of that client in Dafny:

- the hash-based router: parsing a location into a `Route`, the canonical hash of a route,
  document titles and the CSS class of each navigation link;
- the `update` state machines of the components: the navigation bar, the text-input widget,
  the sign-up, sign-in and settings forms, the profile page, and the application root;
- the pure helpers of the API client: error flattening, the article-list query string, the
  endpoint URLs and request shapes, and the `User` to `UserProfile` conversion.

How the components are modelled:

- Each component except the application root is a `class` whose fields are the Rust
  struct's fields.
- Its `update` is a `method` that changes those fields. It returns the ordered log of what
  the Rust code does through the runtime (`Ui.Effect`):
  - a message sent on the output channel (`Send`);
  - an asynchronous task whose completion is fed back as input (`Spawn`);
  - a write of the location hash (`SetHash`) or of the document title (`SetTitle`);
  - a write to or deletion from the session store (`WriteUser`, `WriteItem`, `DeleteUser`).
- What a task completes with is a pure function of the server's answer, such as
  `Register.OnRegistered`.
- Reading the session store is a parameter: `stored: Option<User>`. So is the result of
  writing to it: `Outcome`, which is `Pass` or `Fail(message)`.
- The application root `App` is the exception: it is a module of functions. `App.Update`
  returns the sequence of `AppView` messages it sends, and its only field, the nav gizmo, is
  not modelled as a field. The nav's output reaches it through `App.Forward`.
- A DOM input is `Ui.Element`, a handle with a mutable `value`.
- A built view is an opaque value named by what built it, such as `Page(route)` or
  `NavList(route, user)`.

mogwai's list patches (`PushBack`, `RemoveAll`, `Replace`) form a plain datatype.

- `Ui.Apply` is a reference meaning for a patch on a parent's ordered children, in which
  `RemoveAll` keeps the children declared with the view.
- mogwai is not part of this model, so that meaning is an assumption, not verified library
  code.
- The lemmas about what an emitted patch sequence does to a list rest on it.

Where the code may surprise a reader, the model follows the code:

- A failed write of the session store on sign-up or sign-in schedules exactly one failure
  message carrying the store's error text.
- `Settings` keeps its copy of the user after `Logout`.
- The nav's sign-in link follows the sign-up class (see Findings).

## Model

| member | source | states |
|---|---|---|
| Base.SplitLength | src/route.rs:33 | splitting on a character yields one more piece than the character's occurrences |
| Base.JoinSplit | src/route.rs:33-39 | joining the pieces of a split with the delimiter restores the string |
| Base.SplitJoin | src/route.rs:33-39 | splitting a join of delimiter-free pieces gives back the pieces |
| Routes.ParseAsHash | src/route.rs:163-188 | round trip: for any `#`-free prefix and any route whose slug or username holds no `/` or `#`, parsing prefix + "#" + `as_hash` gives the route back |
| Routes.ParseIsCanonical | src/route.rs:30-65 | every route that parses has such a slug or username, and its text after `#` is exactly its `as_hash`, or empty for `Home` |
| Routes.HashRequired | src/route.rs:33-37 | parsing fails with "route must have a hash: " + input exactly when the input does not contain exactly one `#` |
| Routes.PrefixIgnored | src/route.rs:33-37 | with one `#`, whatever precedes it does not change the result |
| Routes.EmptyHashIsHome | src/route.rs:43-44 | an empty hash and `#/` both parse to `Home` |
| Routes.MatchPathsCanonical | src/route.rs:42-63 | the table accepts only the canonical segment list of the route it returns, or `[""]` for `Home` |
| Routes.MatchSegments | src/route.rs:42-62 | the table maps each route's canonical segments to that route, including `favorites` to `is_favorites = true` |
| Routes.AsHashIsJoinedSegments | src/route.rs:163-188 | `as_hash` is the route's segments joined with `/` |
| Routes.LocalhostIsHome | src/route.rs:194-199 | "https://localhost:8080/#/" parses to `Home` |
| Routes.FavoritesLocation | src/route.rs:59-62 | `#/profile/jake/favorites` parses to jake's favourites, and that is its `as_hash` |
| Routes.NonsenseRefused | src/route.rs:63 | a path outside the table (`/nonsense/x/y`) is an error |
| Routes.TrailingSlashRefused | src/route.rs:42-63 | `#/login/` is an error: a trailing slash is not in the grammar |
| Routes.TitleNamesVariant | src/route.rs:151-160 | two routes share a title exactly when they are the same variant |
| Routes.NavHomeClass | src/route.rs:103-109 | "nav-link active" exactly for `Home`, "nav-link" otherwise |
| Routes.NavEditorClass | src/route.rs:111-117 | "nav-link active" exactly for `Editor`, "nav-link" otherwise |
| Routes.NavSettingsClass | src/route.rs:119-125 | "nav-link active" exactly for `Settings`, "nav-link" otherwise |
| Routes.NavRegisterClass | src/route.rs:127-133 | "nav-link active" exactly for `Register`, "nav-link" otherwise |
| Routes.NavLoginClass | src/route.rs:135-141 | "nav-link active" exactly for `Login`, "nav-link" otherwise |
| Routes.NavProfileClass | src/route.rs:143-149 | "nav-link active" exactly for `Profile`, "nav-link" otherwise |
| Routes.AtMostOneActive | src/route.rs:103-149 | at most one of the six link classes is active for any route, and none for an `Article` |
| Api.FieldLines | src/api.rs:57-62 | one line `name + " " + desc` per description, in order |
| Api.FlattenErrors | src/api.rs:55-63 | one line per description over all fields |
| Api.ErrorLines | src/api.rs:52-67 | `ResponseErrors` gives as many lines as descriptions; any other error gives exactly one line, its display text |
| Api.Display | src/api.rs:24-50 | every error displays non-empty text; the two serialisation failures end with the serde error's text; `ResponseErrors` has no message and displays as its variant name |
| Api.DisplayIdentifies | src/api.rs:24-46 | apart from `ResponseErrors`, two errors display alike exactly when they are the same error, and no display text is empty |
| Api.FlattenErrorsAppend | src/api.rs:55-63 | flattening preserves field order: the lines of a concatenation are the concatenated lines |
| Api.FlattenErrorsAt | src/api.rs:55-63 | the j-th description of the k-th field is rendered as "name desc", right after the lines of the fields before it |
| Api.FlattenErrorsFrom | src/api.rs:55-63 | every flattened line is some field's name, a space and one of its descriptions |
| Api.EmailTakenLine | src/api.rs:52-67 | `{"email": ["has already been taken"]}` shows the single line "email has already been taken" |
| Api.DecodeResponse | src/api.rs:81-89 | a body that decodes as the expected type is the result; otherwise the failure is `ResponseErrors` exactly when the body decodes as an errors map, else the original decode error |
| Api.Headers | src/api.rs:98-107 | the JSON content type always comes first; an `Authorization: Token <t>` header is added exactly when a token is given |
| Api.AuthUserRequest | src/api.rs:158-164 | POST to API_URL + "/users/login" with the credentials as body and no token |
| Api.RegisterUserRequest | src/api.rs:166-172 | POST to API_URL + "/users" with the registration as body and no token |
| Api.UpdateUserRequest | src/api.rs:195-201 | PUT to API_URL + "/user" with the update as body and the token, which becomes the `Authorization: Token <t>` header |
| Api.GetProfileRequest | src/api.rs:235-243 | GET API_URL + "/profiles/" + username, no body, with the token exactly when one is given |
| Api.GetArticlesRequest | src/api.rs:297-315 | GET the article-list URL of the query, no body, with the token exactly when one is given |
| Api.EndpointsDistinct | src/api.rs:158-243 | the login, users, user and profile endpoints are distinct, and a profile URL determines its username |
| Api.DecimalText | src/api.rs:303-304 | a number's decimal text is non-empty, all digits, and has no leading zero |
| Api.DecimalTextValue | src/api.rs:303-304 | the decimal text reads back as the number |
| Api.KeepPresentAppend | src/api.rs:306-308 | keeping the present parameters distributes over concatenation |
| Api.QueryParamsOrder | src/api.rs:299-308 | the present parameters appear in the fixed order tag, author, favorited, limit, offset, whatever the argument order |
| Api.RenderParams | src/api.rs:300-304 | each parameter is rendered as `key=value` |
| Api.ArticlesUrlShape | src/api.rs:309-314 | with no parameter the URL is exactly API_URL + "/articles"; otherwise it adds "?" and the parameters joined by "&" |
| Api.AuthorQuery | src/api.rs:298-314 | the author filter alone gives API_URL + "/articles?author=" + username |
| Api.TagBeforeAuthor | src/api.rs:299-302 | tag "dragons" and author "jake" give "?tag=dragons&author=jake": tag comes first although author is the first argument |
| Api.ToProfile | src/api.rs:219-228 | keeps the username, turns a missing bio or image into "", and is not followed |
| Ui.InputText | src/components/register.rs:34-42 | an input reads as absent when there is no element or its text is empty, otherwise as its text |
| Ui.ApplyResetPatches | src/components/register.rs:129-137 | clearing a list and pushing values leaves its declared children followed by the values, whatever it held before |
| Ui.RemoveAllIdempotent | src/components/register.rs:130 | `RemoveAll` twice equals `RemoveAll` once, and it keeps the declared children |
| Ui.ReplaceInPlace | src/lib.rs:82-84 | `Replace` at an existing index sets that child and keeps the length and every other child |
| Widgets.TextInput.constructor | src/widgets.rs:23-29 | a new widget has no element and holds the given value and placeholder |
| Widgets.TextInput.Update | src/widgets.rs:105-131 | `PostBuild` writes the widget's value into the element and keeps it. `SetValue` writes the element if there is one, leaves the widget's value alone and always schedules one `UpdateValue`. `UpdateValue` without an element does nothing; with one it adopts the element's text and emits `UpdatedValue` exactly when the value changed |
| Widgets.UpdateValueTwice | src/widgets.rs:122-128 | two re-reads in a row emit at most one `UpdatedValue`, and the second emits nothing |
| Widgets.SetValueBeforeBuild | src/widgets.rs:112-121 | a `SetValue` before the element exists is lost: the element shows the initial value and the re-read reports nothing |
| Widgets.SetValueAfterBuild | src/widgets.rs:116-128 | a `SetValue` after the build reaches the element, and the re-read reports the value exactly when it changed |
| Nav.NavView.RouteChange | src/components/nav.rs:145-150 | `Some` exactly for a `Route` message, carrying its route |
| Nav.NavView.ListPatch | src/components/nav.rs:152-157 | `Some` exactly for a `PatchListView` message, so each message gives `Some` from exactly one projection |
| Nav.Nav.constructor | src/components/nav.rs:17-26 | the route of the page's address, `Home` when it does not parse, and the stored user |
| Nav.Nav.Update | src/components/nav.rs:164-187 | the current route changes nothing and emits nothing. A new route is recorded, titles the document and is announced. After that, a `Replace` at index 1 with links for the new route and user is sent exactly when the stored user differs from the one held, and that user is then held |
| Nav.Nav.PostBuild | src/components/nav.rs:195 | the post-build hash change re-sends the current route and so changes nothing |
| Nav.HashChangeInput | src/components/nav.rs:196-199 | a new address that parses becomes a hash change to its route; one that does not produces no input |
| Nav.Container | src/components/nav.rs:201-206 | the container declares two children, the brand and then the link list for the route and user it was built with |
| Nav.ListPatchRebuildsContainer | src/components/nav.rs:175-182 | the patch the nav sends turns its container into the container built for the new route and user, keeping the brand |
| Nav.TrackingFollowsRoute | src/components/nav.rs:88-117 | a class bound to one derivation always shows that derivation of the route currently shown |
| Nav.RouteAfterFront | src/components/nav.rs:170 | the route after a message stream is the route after its tail, starting from the route after its first message |
| Nav.ListView | src/components/nav.rs:83-130 | the signed-in links exactly when there is a user, labelled with the username. The home, editor and settings classes follow their own derivations. As written, the sign-in class follows the sign-up derivation, and the profile class starts from the sign-up derivation |
| Nav.LoginLinkFollowsRegister | src/components/nav.rs:108-112 | the sign-in link of the list as written is highlighted exactly on the sign-up page, and never on the sign-in page |
| Nav.ProfileLinkStartsInactive | src/components/nav.rs:113-117 | built on a profile page, the profile link of the list as written is not highlighted; the intended list highlights it |
| Nav.IntendedListView | src/components/nav.rs:83-130 | the corrected list: every link starts from and follows its own derivation |
| Nav.IntendedLinksTrackRoute | src/components/nav.rs:83-130 | in the corrected list, each link is highlighted exactly when the route shown is its own page, from the moment the list is built |
| Forms.Out.Errors | src/components/register.rs:69-75 | every form output is a patch for the error list, so the projection is always `Some` |
| Forms.ErrorOuts | src/components/register.rs:129-137 | a failure sends 1 + |errors| messages: `RemoveAll`, then one `PushBack` per error, in order |
| Forms.ErrorListShowsErrors | src/components/register.rs:129-137 | after a failure the error list shows exactly that failure's errors, in order |
| Register.OnRegistered | src/components/register.rs:95-113 | the request completes as `RegistrationSuccess(user)`, or as `RegistrationFailure` carrying the flattened error lines |
| Register.Register.constructor | src/components/register.rs:22-30 | all three inputs are absent |
| Register.Register.GetRegistration | src/components/register.rs:33-51 | each field is its input's text, absent when the input is missing or empty |
| Register.Register.Update | src/components/register.rs:82-140 | an input message sets only its own field and emits nothing. `Submit` changes nothing and schedules exactly the registration request with the form's values. On success the user is written to the store; then the hash becomes "/", or, if the write failed, one failure carrying the store's error is scheduled. A failure emits `RemoveAll` and one `PushBack` per error |
| Login.OnAuthenticated | src/components/login.rs:87-106 | the request completes as `LoginSuccess(user)`, or as `LoginFailure` carrying the flattened error lines |
| Login.Login.constructor | src/components/login.rs:18-25 | both inputs are absent |
| Login.Login.GetLogin | src/components/login.rs:29-47 | the username is always absent; email and password are their inputs' text, absent when missing or empty |
| Login.Login.Update | src/components/login.rs:77-132 | an input message sets only its own field. `Submit` schedules exactly the sign-in request. On success the user is written under the key "user"; then the hash becomes "/", or one failure with the store's error is scheduled. A failure emits `RemoveAll` and one `PushBack` per error |
| Settings.OnUpdated | src/components/settings.rs:120-127 | the request completes as `UpdateSuccess(user)`, or as `UpdateFailure` carrying the flattened error lines |
| Settings.SetUserSends | src/components/settings.rs:39-47 | each input receives a `SetValue` with the user's value for it, and nothing else: picture and bio only when present, name and email always, the password never |
| Settings.SubmittedUpdate | src/components/settings.rs:98-118 | email, name, bio and picture are always present, even when empty; the password is absent exactly when empty |
| Settings.SubmissionNeverEmpty | src/api.rs:183-193 | `UserUpdate::default` has all five fields absent, and no submission equals it |
| Settings.ShowErrors | src/components/settings.rs:143-152 | an update failure sends 1 + |errors| messages on the page's channel: `RemoveAll`, then one `PushBack` per error, in order |
| Settings.Settings.Empty | src/components/settings.rs:23-30 | five fresh, unattached inputs, each empty with its own placeholder, and no user |
| Settings.Settings.Default | src/components/settings.rs:21-36 | five empty, unattached inputs with their placeholders; the user is set, with its sends, exactly when the store holds one |
| Settings.Settings.SetUser | src/components/settings.rs:39-49 | sends the user's values to the inputs, then holds the user |
| Settings.Settings.Bind | src/components/settings.rs:79-89 | schedules a fetch of the user with its token exactly when a user is held |
| Settings.Settings.Update | src/components/settings.rs:91-160 | a fetched user is shown and stored. `Submit` does nothing without a user; with one it schedules the update with the widgets' values and the user's token. On success the user is held and stored, and the hash becomes "/profile/" + username. A failure emits `RemoveAll` and one `PushBack` per error. `Logout` deletes the stored user and sets the hash to "/" |
| Profile.Out.ArticlesOf | src/components/profile.rs:49-55 | `Some` exactly for an article patch |
| Profile.Out.UserOf | src/components/profile.rs:57-63 | `Some` exactly for a profile, so the two projections are disjoint |
| Profile.HeaderUpdate | src/components/profile.rs:124-137 | a profile sets the picture, the name and the label " Follow " + username; an article patch leaves the header alone |
| Profile.ArticleOuts | src/components/profile.rs:98-105 | an article list sends 1 + |articles| messages: `RemoveAll`, then one preview per article, in list order |
| Profile.ArticlePatchesOfWrap | src/components/profile.rs:155-156 | the article slot receives exactly the patches the page sends |
| Profile.ArticleSlotShowsArticles | src/components/profile.rs:98-105 | after an article list arrives the slot shows one preview per article, in order |
| Profile.Profile.constructor | src/components/profile.rs:31-34 | the page holds the username and the favourites flag it was made with |
| Profile.Profile.Bind | src/components/profile.rs:71-89 | exactly two fetches, the profile and then the articles written by the same user (`get_articles` with only the author set), with the same token. The article query is `?author=` + username |
| Profile.Profile.Update | src/components/profile.rs:91-110 | changes no field. An article list emits `RemoveAll` and one `PushBack` per article, in order; a profile emits exactly one `Out::Profile` |
| App.Forward | src/lib.rs:61-66 | only route announcements become app input, as a hash change to the same route; list patches are dropped |
| App.Update | src/lib.rs:68-78 | exactly one `NewPage`, built for and carrying the input route |
| App.SlotPatch | src/lib.rs:82-84 | every `NewPage` becomes `Replace` at index 1 carrying its page |
| App.PageFollowsRoute | src/lib.rs:80-102 | whatever the nav announces, the slot keeps the nav first and the footer last, and its middle child is the page of the route the nav shows |

## Left out

- The mogwai runtime is not modelled: channels, `Gizmo`, `send_async` scheduling, the patch reconciler and the `Effect` bindings of `builder!`. Scheduling is the ordered `Spawn` entries of an effect log. What a task delivers is the component's completion function. What a patch does is the assumed `Ui.Apply`.
- DOM and view construction is not modelled: `builder!`/`view!` trees, `From<&Route> for ViewBuilder`, `article_builder`, `InputOrArea::view` and src/page.rs. Views are opaque values.
- Which events reach `update` is not modelled: key-up, click and `post:build` handlers feed the `In` messages. The nav's `post:build` and `hashchange` handlers are the exceptions (`Nav.Nav.PostBuild`, `Nav.HashChangeInput`).
- src/store.rs is not part of this model: reading the store is a parameter, and writes and deletes are effects. src/store.rs defines only `write_item` and `read_item`; the `read_user`, `write_user` and `delete_user` the components call are not defined in it.
- Network and JSON are not modelled: `send_request`'s fetch, `req_init`'s `RequestInit` and CORS mode, and serde. A request is a value (`Api.Request`); serde's errors are their display text. `DecodeResponse` takes both decodings of the body as inputs.
- Errors returned by `req_init` and `api` before any response (construct request, create or append headers, serialise) are not modelled: the requests are values that always exist.
- The order of `ResponseErrors` pairs is modelled as given: the backend's map is a `HashMap`, and its iteration order is not modelled.
- `get_user`, called by `Settings::bind`, is not defined in src/api.rs. It is the opaque task `FetchUser(token)`.
- The panics in `Settings::bind` and `Profile::bind` when their fetch fails are not modelled: a fetch task has no failure completion.
- `Routes.Parse`: the `{:?}` rendering in the "unsupported route" message escapes only quote, backslash, newline, carriage return and tab. Rust's `Debug` escapes further characters as `\u{..}`.
- `Settings.Settings.Update`: the child widgets' handling of the `SetValue` messages sent to them is `Widgets.TextInput.Update`; settings does not run it. The sends are recorded in its log, and the later reads use the widgets' values.
- `Profile.Profile.Update`: `Out::Profile` carries the whole profile; the header's `src` and text bindings are `Profile.HeaderUpdate`.
- Logging (`trace!`), the panic hook, the logger, `main` and the allocator are not modelled.

## Findings

| source | as written | input that shows it | evidently intended | confidence | as-written member | corrected member |
|---|---|---|---|---|---|---|
| src/components/nav.rs:108-112 | the sign-in link's class is derived with `nav_register_class` | signed out, route `Login`: the "Sign in" link has class "nav-link"; on `Register` both "Sign in" and "Sign up" are active | derive it with `nav_login_class` | high, not executed | Nav.LoginLinkFollowsRegister | Nav.IntendedLinksTrackRoute |
| src/components/nav.rs:113-117 | the profile link's initial class is `nav_register_class` of the current route | signed in, list built on `Profile{jake,false}`: the profile link has class "nav-link" until the next route change | initial class `nav_profile_class` of the current route | high, not executed | Nav.ProfileLinkStartsInactive | Nav.IntendedLinksTrackRoute |
