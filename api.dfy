/** The pure parts of the conduit REST client: the error type and its flattening into
    display lines, the shape of every request the components issue (URL, method, body,
    authorization header), the article-list query string, and the `User` to `UserProfile`
    conversion. Sending requests and JSON (de)serialisation are outside the model. */
module Api {
  import opened Base

  const ApiUrl: string := "https://conduit.productionready.io/api"

  /** An unsigned 32-bit integer, as `u32`. */
  newtype u32 = x: int | 0 <= x < 0x1_0000_0000

  datatype User = User(
    email: string,
    token: string,
    username: string,
    bio: Option<string>,
    image: Option<string>)

  /** Registration and login credentials. */
  datatype UserRegistration = UserRegistration(
    email: Option<string>,
    username: Option<string>,
    password: Option<string>)

  datatype UserUpdate = UserUpdate(
    email: Option<string>,
    username: Option<string>,
    bio: Option<string>,
    image: Option<string>,
    password: Option<string>)

  /** `UserUpdate::default()`: an update that sets nothing. */
  const NoUpdate: UserUpdate := UserUpdate(None, None, None, None, None)

  datatype UserProfile = UserProfile(username: string, bio: string, image: string, following: bool)

  datatype Article = Article(
    slug: string,
    title: string,
    description: string,
    body: string,
    tagList: seq<string>,
    favorited: bool,
    favoritesCount: u32,
    author: UserProfile)

  datatype Articles = Articles(articles: seq<Article>, articleCount: u32)

  /** `request::Error`. The serde error carried by the two (de)serialisation failures is
      represented by its display text. */
  datatype Error =
    | ConstructRequest
    | CantCreateHeaders
    | CantAppendHeaders
    | RequestFailure
    | MalformedResponse
    | FailedJson
    | FailedAwaitingJson
    | DeserializeFailure(source: string)
    | SerializeFailure(source: string)
    | ResponseErrors(errors: seq<(string, seq<string>)>)

  /** The `Display` text the error derives. `ResponseErrors` has no display attribute, so it
      displays as its variant name. */
  function Display(e: Error): (s: string)
    ensures |s| > 0
    ensures e.ResponseErrors? ==> s == "ResponseErrors"
    ensures e.DeserializeFailure? || e.SerializeFailure? ==>
      |e.source| < |s| && s[|s| - |e.source|..] == e.source
  {
    match e
    case ConstructRequest => "could not construct request"
    case CantCreateHeaders => "could not create request headers"
    case CantAppendHeaders => "could not set request headers"
    case RequestFailure => "request failure"
    case MalformedResponse => "response was malformed"
    case FailedJson => "response was not json"
    case FailedAwaitingJson => "timed out awaiting json"
    case DeserializeFailure(source) => "could not deserialize response json: " + source
    case SerializeFailure(source) => "could not serialize request json: " + source
    case ResponseErrors(_) => "ResponseErrors"
  }

  /** Apart from `ResponseErrors`, whose lines come from its map instead, the display text
      identifies the error: different errors never display alike. */
  lemma DisplayIdentifies(e1: Error, e2: Error)
    requires !e1.ResponseErrors? && !e2.ResponseErrors?
    ensures Display(e1) == Display(e2) <==> e1 == e2
    ensures |Display(e1)| > 0
  {
    var d1, d2 := Display(e1), Display(e2);
    if d1 == d2 {
      if e1.DeserializeFailure? || e1.SerializeFailure? || e2.DeserializeFailure? || e2.SerializeFailure? {
        assert d1[10] == d2[10];
        assert |d1| == |d2|;
        if e1.DeserializeFailure? && e2.DeserializeFailure? {
          var prefix := "could not deserialize response json: ";
          assert e1.source == d1[|prefix|..];
          assert e2.source == d2[|prefix|..];
        } else if e1.SerializeFailure? && e2.SerializeFailure? {
          var prefix := "could not serialize request json: ";
          assert e1.source == d1[|prefix|..];
          assert e2.source == d2[|prefix|..];
        }
      }
    }
  }

  // ---------------------------------------------------------------------------
  // Flattening errors into display lines

  /** The lines of one field: `"<name> <desc>"` for each description, in order. */
  function FieldLines(name: string, descs: seq<string>): (lines: seq<string>)
    ensures |lines| == |descs|
    ensures forall j :: 0 <= j < |descs| ==> lines[j] == name + " " + descs[j]
    decreases |descs|
  {
    if descs == [] then [] else [name + " " + descs[0]] + FieldLines(name, descs[1..])
  }

  /** The number of descriptions over all fields. */
  function MessageCount(errors: seq<(string, seq<string>)>): nat
    decreases |errors|
  {
    if errors == [] then 0 else |errors[0].1| + MessageCount(errors[1..])
  }

  function FlattenErrors(errors: seq<(string, seq<string>)>): (lines: seq<string>)
    ensures |lines| == MessageCount(errors)
    decreases |errors|
  {
    if errors == [] then [] else FieldLines(errors[0].0, errors[0].1) + FlattenErrors(errors[1..])
  }

  /** `From<Error> for Vec<String>`: the validation map flattened to one line per
      field/description pair, any other error as its single display line. */
  function ErrorLines(e: Error): (lines: seq<string>)
    ensures |lines| == if e.ResponseErrors? then MessageCount(e.errors) else 1
    ensures !e.ResponseErrors? ==> lines[0] == Display(e)
  {
    match e
    case ResponseErrors(errors) => FlattenErrors(errors)
    case _ => [Display(e)]
  }

  /** Flattening respects the order of the fields: the lines of a concatenation are the
      concatenation of the lines. */
  lemma {:induction false} FlattenErrorsAppend(a: seq<(string, seq<string>)>, b: seq<(string, seq<string>)>)
    ensures FlattenErrors(a + b) == FlattenErrors(a) + FlattenErrors(b)
    ensures MessageCount(a + b) == MessageCount(a) + MessageCount(b)
    decreases |a|
  {
    if a == [] {
      assert a + b == b;
    } else {
      assert (a + b)[0] == a[0];
      assert (a + b)[1..] == a[1..] + b;
      FlattenErrorsAppend(a[1..], b);
      calc {
        FlattenErrors(a + b);
        FieldLines(a[0].0, a[0].1) + FlattenErrors(a[1..] + b);
        FieldLines(a[0].0, a[0].1) + (FlattenErrors(a[1..]) + FlattenErrors(b));
        FlattenErrors(a) + FlattenErrors(b);
      }
    }
  }

  /** The `j`-th description of the `k`-th field is rendered as `"<name> <desc>"` at the
      position just after the lines of the fields before it. */
  lemma {:induction false} FlattenErrorsAt(errors: seq<(string, seq<string>)>, k: nat, j: nat)
    requires k < |errors| && j < |errors[k].1|
    ensures MessageCount(errors[..k]) + j < |FlattenErrors(errors)|
    ensures FlattenErrors(errors)[MessageCount(errors[..k]) + j] == errors[k].0 + " " + errors[k].1[j]
  {
    assert errors == errors[..k] + [errors[k]] + errors[k + 1..];
    FlattenErrorsAppend(errors[..k] + [errors[k]], errors[k + 1..]);
    FlattenErrorsAppend(errors[..k], [errors[k]]);
    assert [errors[k]][1..] == [];
  }

  /** Every line comes from some field and one of its descriptions. */
  lemma {:induction false} FlattenErrorsFrom(errors: seq<(string, seq<string>)>, n: nat)
    requires n < |FlattenErrors(errors)|
    ensures exists k, j ::
      0 <= k < |errors| && 0 <= j < |errors[k].1| && FlattenErrors(errors)[n] == errors[k].0 + " " + errors[k].1[j]
    decreases |errors|
  {
    var first := FieldLines(errors[0].0, errors[0].1);
    if n < |first| {
      assert FlattenErrors(errors)[n] == errors[0].0 + " " + errors[0].1[n];
    } else {
      FlattenErrorsFrom(errors[1..], n - |first|);
      var k, j :| 0 <= k < |errors[1..]| && 0 <= j < |errors[1..][k].1| &&
        FlattenErrors(errors[1..])[n - |first|] == errors[1..][k].0 + " " + errors[1..][k].1[j];
      assert FlattenErrors(errors)[n] == errors[k + 1].0 + " " + errors[k + 1].1[j];
    }
  }

  /** A backend answer `{"errors":{"email":["has already been taken"]}}` shows exactly one line. */
  lemma EmailTakenLine()
    ensures ErrorLines(ResponseErrors([("email", ["has already been taken"])])) == ["email has already been taken"]
  {
    assert "email" + " " + "has already been taken" == "email has already been taken";
    assert FieldLines("email", ["has already been taken"]) == ["email has already been taken"];
  }

  // ---------------------------------------------------------------------------
  // Responses

  /** `send_request`'s decoding: a body that does not decode as the expected type is
      re-read as an errors map; if that succeeds the failure becomes `ResponseErrors`,
      otherwise it stays the original decode error. `expected` is the body decoded as the
      expected type (or serde's error text), `errorsMap` the body decoded as an errors map. */
  function DecodeResponse<T>(expected: Result<T, string>, errorsMap: Option<seq<(string, seq<string>)>>): (r: Result<T, Error>)
    ensures r.Ok? <==> expected.Ok?
    ensures r.Ok? ==> r.value == expected.value
    ensures r.Err? ==> (r.error.ResponseErrors? <==> errorsMap.Some?)
    ensures r.Err? && errorsMap.Some? ==> r.error.errors == errorsMap.value
    ensures r.Err? && errorsMap.None? ==> r.error == DeserializeFailure(expected.error)
  {
    match expected
    case Ok(v) => Ok(v)
    case Err(source) =>
      match errorsMap
      case Some(errors) => Err(ResponseErrors(errors))
      case None => Err(DeserializeFailure(source))
  }

  // ---------------------------------------------------------------------------
  // Requests

  /** A JSON request body: a value wrapped as `{"user": ...}`. */
  datatype Body = RegistrationBody(registration: UserRegistration) | UpdateBody(update: UserUpdate)

  datatype Request = Request(url: string, verb: string, body: Option<Body>, auth: Option<string>)

  /** The headers `req_init` sets: the JSON content type, then the token if one is given. */
  function Headers(auth: Option<string>): (headers: seq<(string, string)>)
    ensures |headers| == if auth.Some? then 2 else 1
    ensures headers[0] == ("Content-Type", "application/json; charset=utf-8")
    ensures forall i :: 0 <= i < |headers| && headers[i].0 == "Authorization" ==>
      auth.Some? && headers[i].1 == "Token " + auth.value
    ensures auth.Some? ==> headers[1] == ("Authorization", "Token " + auth.value)
  {
    [("Content-Type", "application/json; charset=utf-8")] +
    match auth
    case Some(token) => [("Authorization", "Token " + token)]
    case None => []
  }

  function UsersLoginUrl(): string { ApiUrl + "/users/login" }
  function UsersUrl(): string { ApiUrl + "/users" }
  function UserUrl(): string { ApiUrl + "/user" }
  function ProfileUrl(username: string): string { ApiUrl + "/profiles/" + username }

  /** The endpoints are distinct locations under the API root, and a profile URL names its user. */
  lemma EndpointsDistinct(u: string, v: string)
    ensures UsersLoginUrl() != UsersUrl() && UsersLoginUrl() != UserUrl() && UsersUrl() != UserUrl()
    ensures UsersLoginUrl() != ProfileUrl(u) && UsersUrl() != ProfileUrl(u) && UserUrl() != ProfileUrl(u)
    ensures ProfileUrl(u) == ProfileUrl(v) ==> u == v
  {
    var root := ApiUrl;
    assert UsersUrl()[|root| + 5] == 's';
    assert UserUrl()[|root| + 4] == 'r';
    assert |UserUrl()| == |root| + 5;
    assert ProfileUrl(u)[|root| + 1] == 'p';
    assert UsersLoginUrl()[|root| + 1] == 'u';
    assert UsersUrl()[|root| + 1] == 'u';
    assert UserUrl()[|root| + 1] == 'u';
    if ProfileUrl(u) == ProfileUrl(v) {
      var prefix := ApiUrl + "/profiles/";
      assert u == ProfileUrl(u)[|prefix|..];
      assert v == ProfileUrl(v)[|prefix|..];
    }
  }

  /** `auth_user`: POST the credentials to `/users/login`, without a token. */
  function AuthUserRequest(user: UserRegistration): (r: Request)
    ensures r.url == ApiUrl + "/users/login" && r.verb == "POST"
    ensures r.body == Some(RegistrationBody(user)) && r.auth.None?
  {
    Request(UsersLoginUrl(), "POST", Some(RegistrationBody(user)), None)
  }

  /** `register_user`: POST the credentials to `/users`, without a token. */
  function RegisterUserRequest(user: UserRegistration): (r: Request)
    ensures r.url == ApiUrl + "/users" && r.verb == "POST"
    ensures r.body == Some(RegistrationBody(user)) && r.auth.None?
  {
    Request(UsersUrl(), "POST", Some(RegistrationBody(user)), None)
  }

  /** `update_user`: PUT the update to `/user` with the token. */
  function UpdateUserRequest(user: UserUpdate, token: string): (r: Request)
    ensures r.url == ApiUrl + "/user" && r.verb == "PUT"
    ensures r.body == Some(UpdateBody(user)) && r.auth == Some(token)
    ensures Headers(r.auth)[1] == ("Authorization", "Token " + token)
  {
    Request(UserUrl(), "PUT", Some(UpdateBody(user)), Some(token))
  }

  /** `get_profile`: GET `/profiles/<username>`, with the token if there is one. */
  function GetProfileRequest(username: string, token: Option<string>): (r: Request)
    ensures r.url == ApiUrl + "/profiles/" + username && r.verb == "GET"
    ensures r.body.None? && r.auth == token
  {
    Request(ProfileUrl(username), "GET", None, token)
  }

  /** `get_articles`: GET the article list for the given query. */
  function GetArticlesRequest(author: Option<string>, tag: Option<string>, favorited: Option<string>,
                              limit: Option<u32>, offset: Option<u32>, token: Option<string>): (r: Request)
    ensures r.url == ArticlesUrl(author, tag, favorited, limit, offset) && r.verb == "GET"
    ensures r.body.None? && r.auth == token
  {
    Request(ArticlesUrl(author, tag, favorited, limit, offset), "GET", None, token)
  }

  // ---------------------------------------------------------------------------
  // The article-list query

  /** The ASCII digit for `d`. */
  function DigitChar(d: nat): char
    requires d < 10
  {
    ('0' as int + d) as char
  }

  /** The decimal text of a number, as `format!("{}", n)`. */
  function DecimalText(n: nat): (s: string)
    ensures |s| >= 1
    ensures forall i :: 0 <= i < |s| ==> '0' <= s[i] <= '9'
    ensures n >= 10 ==> s[0] != '0'
  {
    if n < 10 then [DigitChar(n)] else DecimalText(n / 10) + [DigitChar(n % 10)]
  }

  /** The number a string of decimal digits denotes. */
  function DigitsValue(s: string): nat
    requires forall i :: 0 <= i < |s| ==> '0' <= s[i] <= '9'
    decreases |s|
  {
    if s == [] then 0 else DigitsValue(s[..|s| - 1]) * 10 + (s[|s| - 1] as int - '0' as int)
  }

  /** The decimal text reads back as the number it was made from. */
  lemma {:induction false} DecimalTextValue(n: nat)
    ensures DigitsValue(DecimalText(n)) == n
    decreases n
  {
    if n >= 10 {
      DecimalTextValue(n / 10);
      var s := DecimalText(n);
      assert s[..|s| - 1] == DecimalText(n / 10);
    }
  }

  /** The query keys, in the order the query lists them. */
  const QueryKeys: seq<string> := ["tag", "author", "favorited", "limit", "offset"]

  function NumberParam(o: Option<u32>): Option<string> {
    match o
    case Some(n) => Some(DecimalText(n as nat))
    case None => None
  }

  /** `filter_map(|x| x)`: the present values, keyed and in order. */
  function KeepPresent(candidates: seq<(string, Option<string>)>): seq<(string, string)>
    decreases |candidates|
  {
    if candidates == [] then []
    else
      var rest := KeepPresent(candidates[1..]);
      match candidates[0].1
      case Some(v) => [(candidates[0].0, v)] + rest
      case None => rest
  }

  lemma {:induction false} KeepPresentAppend(a: seq<(string, Option<string>)>, b: seq<(string, Option<string>)>)
    ensures KeepPresent(a + b) == KeepPresent(a) + KeepPresent(b)
    decreases |a|
  {
    if a == [] {
      assert a + b == b;
    } else {
      assert (a + b)[0] == a[0];
      assert (a + b)[1..] == a[1..] + b;
      KeepPresentAppend(a[1..], b);
    }
  }

  /** A present parameter as a one-element list, an absent one as none. */
  function Param(key: string, o: Option<string>): seq<(string, string)> {
    match o
    case Some(v) => [(key, v)]
    case None => []
  }

  /** The query parameters of `get_articles`, as key/value pairs. */
  function QueryParams(author: Option<string>, tag: Option<string>, favorited: Option<string>,
                       limit: Option<u32>, offset: Option<u32>): seq<(string, string)>
  {
    KeepPresent([("tag", tag), ("author", author), ("favorited", favorited),
                 ("limit", NumberParam(limit)), ("offset", NumberParam(offset))])
  }

  /** The parameters are the present ones, in the fixed order tag, author, favorited, limit,
      offset, whatever the order of the arguments. */
  lemma QueryParamsOrder(author: Option<string>, tag: Option<string>, favorited: Option<string>,
                         limit: Option<u32>, offset: Option<u32>)
    ensures QueryParams(author, tag, favorited, limit, offset) ==
      Param("tag", tag) + Param("author", author) + Param("favorited", favorited) +
      Param("limit", NumberParam(limit)) + Param("offset", NumberParam(offset))
  {
    var c0, c1, c2, c3, c4 := ("tag", tag), ("author", author), ("favorited", favorited),
                              ("limit", NumberParam(limit)), ("offset", NumberParam(offset));
    KeepPresentOne(c0);
    KeepPresentOne(c1);
    KeepPresentOne(c2);
    KeepPresentOne(c3);
    KeepPresentOne(c4);
    KeepPresentAppend([c0, c1, c2, c3], [c4]);
    KeepPresentAppend([c0, c1, c2], [c3]);
    KeepPresentAppend([c0, c1], [c2]);
    KeepPresentAppend([c0], [c1]);
    assert [c0, c1, c2, c3, c4] == [c0, c1, c2, c3] + [c4];
    assert [c0, c1, c2, c3] == [c0, c1, c2] + [c3];
    assert [c0, c1, c2] == [c0, c1] + [c2];
    assert [c0, c1] == [c0] + [c1];
  }

  lemma KeepPresentOne(c: (string, Option<string>))
    ensures KeepPresent([c]) == Param(c.0, c.1)
  {
    assert [c][1..] == [];
  }

  function RenderParams(params: seq<(string, string)>): (texts: seq<string>)
    ensures |texts| == |params|
    ensures forall i :: 0 <= i < |params| ==> texts[i] == params[i].0 + "=" + params[i].1
    decreases |params|
  {
    if params == [] then [] else [params[0].0 + "=" + params[0].1] + RenderParams(params[1..])
  }

  /** The URL `get_articles` requests: `/articles`, followed by `?` and the `&`-joined
      parameters when there is at least one. */
  function ArticlesUrl(author: Option<string>, tag: Option<string>, favorited: Option<string>,
                       limit: Option<u32>, offset: Option<u32>): string
  {
    var params := RenderParams(QueryParams(author, tag, favorited, limit, offset));
    ApiUrl + "/articles" + if params == [] then "" else "?" + Join(params, "&")
  }

  /** With no parameter the URL is exactly the article list; with any parameter it carries a query. */
  lemma ArticlesUrlShape(author: Option<string>, tag: Option<string>, favorited: Option<string>,
                         limit: Option<u32>, offset: Option<u32>)
    ensures author.None? && tag.None? && favorited.None? && limit.None? && offset.None? ==>
      ArticlesUrl(author, tag, favorited, limit, offset) == ApiUrl + "/articles"
    ensures !(author.None? && tag.None? && favorited.None? && limit.None? && offset.None?) ==>
      ArticlesUrl(author, tag, favorited, limit, offset) ==
        ApiUrl + "/articles?" + Join(RenderParams(QueryParams(author, tag, favorited, limit, offset)), "&")
  {
    QueryParamsOrder(author, tag, favorited, limit, offset);
  }

  /** The author filter alone, as the profile page asks for it. */
  lemma AuthorQuery(username: string)
    ensures ArticlesUrl(Some(username), None, None, None, None) == ApiUrl + "/articles?author=" + username
  {
    QueryParamsOrder(Some(username), None, None, None, None);
    assert RenderParams([("author", username)]) == ["author" + "=" + username];
    assert "author" + "=" + username == "author=" + username;
  }

  /** The tag is listed before the author although it is the second argument. */
  lemma TagBeforeAuthor()
    ensures ArticlesUrl(Some("jake"), Some("dragons"), None, None, None) ==
      ApiUrl + "/articles?tag=dragons&author=jake"
  {
    QueryParamsOrder(Some("jake"), Some("dragons"), None, None, None);
    var texts := RenderParams([("tag", "dragons"), ("author", "jake")]);
    assert "tag" + "=" + "dragons" == "tag=dragons";
    assert "author" + "=" + "jake" == "author=jake";
    assert texts == ["tag=dragons", "author=jake"];
    assert Join(texts, "&") == "tag=dragons" + "&" + "author=jake";
  }

  // ---------------------------------------------------------------------------
  // Profiles

  /** `UserProfile::from(user)`: keeps the username, turns a missing bio or image into the
      empty string, and is not followed. */
  function ToProfile(user: User): (p: UserProfile)
    ensures p.username == user.username && !p.following
    ensures user.bio.Some? ==> p.bio == user.bio.value
    ensures user.bio.None? ==> p.bio == ""
    ensures user.image.Some? ==> p.image == user.image.value
    ensures user.image.None? ==> p.image == ""
  {
    UserProfile(user.username, user.bio.GetOr(""), user.image.GetOr(""), false)
  }
}
