/** The application's routes: parsing a location into a `Route`, the canonical hash path of
    a route, its document title, and the CSS class of each navigation link. */
module Routes {
  import opened Base

  datatype Route =
    | Home
    | Login
    | Register
    | Settings
    | Editor(oSlug: Option<string>)
    | Article(slug: string)
    | Profile(username: string, isFavorites: bool)

  // ---------------------------------------------------------------------------
  // Parsing

  /** `Route::try_from`: everything before the single `#` is ignored; what follows is split
      on `/` and matched against the route table. */
  function Parse(s: string): Result<Route, string> {
    var hashSplit := Split(s, '#');
    if |hashSplit| != 2 then Err("route must have a hash: " + s)
    else MatchPaths(Split(hashSplit[1], '/'))
  }

  /** The route table, on the `/`-separated segments after the hash. */
  function MatchPaths(paths: seq<string>): Result<Route, string> {
    if paths == [""] || paths == ["", ""] then Ok(Home)
    else if paths == ["", "login"] then Ok(Login)
    else if paths == ["", "register"] then Ok(Register)
    else if paths == ["", "settings"] then Ok(Settings)
    else if paths == ["", "editor"] then Ok(Editor(None))
    else if |paths| == 3 && paths[0] == "" && paths[1] == "editor" then Ok(Editor(Some(paths[2])))
    else if |paths| == 3 && paths[0] == "" && paths[1] == "article" then Ok(Article(paths[2]))
    else if |paths| == 3 && paths[0] == "" && paths[1] == "profile" then Ok(Profile(paths[2], false))
    else if |paths| == 4 && paths[0] == "" && paths[1] == "profile" && paths[3] == "favorites" then
      Ok(Profile(paths[2], true))
    else Err("unsupported route: " + DebugList(paths))
  }

  /** `{:?}` of a string: quoted, with quote, backslash and the common control characters escaped. */
  function DebugString(s: string): string {
    "\"" + Escape(s) + "\""
  }

  function Escape(s: string): string
    decreases |s|
  {
    if s == [] then []
    else
      (match s[0]
       case '"' => "\\\""
       case '\\' => "\\\\"
       case '\n' => "\\n"
       case '\r' => "\\r"
       case '\t' => "\\t"
       case c => [c])
      + Escape(s[1..])
  }

  /** `{:?}` of a list of strings: `["", "a"]`. */
  function DebugList(parts: seq<string>): string {
    "[" + Join(DebugStrings(parts), ", ") + "]"
  }

  function DebugStrings(parts: seq<string>): seq<string>
    decreases |parts|
  {
    if parts == [] then [] else [DebugString(parts[0])] + DebugStrings(parts[1..])
  }

  // ---------------------------------------------------------------------------
  // Serialising

  /** `as_hash`: the canonical hash path of a route. */
  function AsHash(r: Route): string {
    match r
    case Home => "/"
    case Register => "/register"
    case Login => "/login"
    case Editor(oSlug) =>
      (match oSlug
       case Some(slug) => "/editor/" + slug
       case None => "/editor")
    case Settings => "/settings"
    case Article(slug) => "/article/" + slug
    case Profile(username, isFavorites) =>
      if isFavorites then "/profile/" + username + "/favorites" else "/profile/" + username
  }

  /** The path segments of a route's canonical hash. */
  function Segments(r: Route): seq<string> {
    match r
    case Home => ["", ""]
    case Login => ["", "login"]
    case Register => ["", "register"]
    case Settings => ["", "settings"]
    case Editor(None) => ["", "editor"]
    case Editor(Some(slug)) => ["", "editor", slug]
    case Article(slug) => ["", "article", slug]
    case Profile(username, false) => ["", "profile", username]
    case Profile(username, true) => ["", "profile", username, "favorites"]
  }

  /** A route whose slug or username can be written into a location: it contains neither
      a path separator nor a hash. */
  predicate Addressable(r: Route) {
    match r
    case Editor(Some(slug)) => '/' !in slug && '#' !in slug
    case Article(slug) => '/' !in slug && '#' !in slug
    case Profile(username, _) => '/' !in username && '#' !in username
    case _ => true
  }

  lemma AsHashIsJoinedSegments(r: Route)
    ensures AsHash(r) == Join(Segments(r), "/")
  {
    if r.Article? || r.Profile? || (r.Editor? && r.oSlug.Some?) {
      ParameterisedJoined(r);
    } else {
      FixedJoined(r);
    }
  }

  /** The routes without a parameter: `/` and one name. */
  lemma FixedJoined(r: Route)
    requires !(r.Article? || r.Profile? || (r.Editor? && r.oSlug.Some?))
    ensures AsHash(r) == Join(Segments(r), "/")
  {
    match r
    case Home => JoinFirst("");
    case Login => JoinFirst("login");
    case Register => JoinFirst("register");
    case Settings => JoinFirst("settings");
    case Editor(_) => JoinFirst("editor");
  }

  /** The routes carrying a slug or a username. */
  lemma ParameterisedJoined(r: Route)
    requires r.Article? || r.Profile? || (r.Editor? && r.oSlug.Some?)
    ensures AsHash(r) == Join(Segments(r), "/")
  {
    match r
    case Editor(Some(slug)) => JoinSecond("editor", slug);
    case Article(slug) => JoinSecond("article", slug);
    case Profile(username, false) => JoinSecond("profile", username);
    case Profile(username, true) => JoinFavorites(username);
  }

  lemma JoinFirst(key: string)
    ensures Join(["", key], "/") == "/" + key
  {}

  lemma JoinSecond(key: string, value: string)
    ensures Join(["", key, value], "/") == "/" + key + "/" + value
  {
    assert Join([key, value], "/") == key + "/" + value;
  }

  lemma JoinFavorites(username: string)
    ensures Join(["", "profile", username, "favorites"], "/") == "/profile/" + username + "/favorites"
  {
    var tail := [username, "favorites"];
    assert Join(tail, "/") == username + "/favorites";
    assert Join(["profile"] + tail, "/") == "profile" + "/" + Join(tail, "/");
    assert ["profile", username, "favorites"] == ["profile"] + tail;
    assert Join(["", "profile", username, "favorites"], "/") == "" + "/" + Join(["profile", username, "favorites"], "/");
  }

  lemma MatchSegments(r: Route)
    ensures MatchPaths(Segments(r)) == Ok(r)
  {}

  /** Whatever the table accepts are the canonical segments of the result, or the bare
      empty hash for `Home`. */
  lemma MatchPathsCanonical(paths: seq<string>)
    requires MatchPaths(paths).Ok?
    ensures paths == Segments(MatchPaths(paths).value) || (MatchPaths(paths).value == Home && paths == [""])
  {
    var r := MatchPaths(paths).value;
    if |paths| == 3 || |paths| == 4 {
      assert paths == Segments(r);
    }
  }

  // ---------------------------------------------------------------------------
  // Properties of the codec

  /** Round trip: a location made of any hash-free prefix, `#`, and the canonical hash of an
      addressable route parses back to that route. */
  lemma {:induction false} ParseAsHash(prefix: string, r: Route)
    requires '#' !in prefix
    requires Addressable(r)
    ensures Parse(prefix + "#" + AsHash(r)) == Ok(r)
  {
    var segs := Segments(r);
    AsHashIsJoinedSegments(r);
    SegmentsAvoid(r);
    JoinAvoids(segs, "/", '#');
    var h := AsHash(r);
    assert prefix + "#" + h == Join([prefix, h], "#");
    SplitJoin([prefix, h], '#');
    SplitJoin(segs, '/');
    MatchSegments(r);
  }

  /** An addressable route's segments contain neither separator. */
  lemma SegmentsAvoid(r: Route)
    requires Addressable(r)
    ensures forall i :: 0 <= i < |Segments(r)| ==> '/' !in Segments(r)[i] && '#' !in Segments(r)[i]
  {
    var segs := Segments(r);
    forall i | 0 <= i < |segs|
      ensures '/' !in segs[i] && '#' !in segs[i]
    {
      if i < 2 {
        assert segs[i] in ["", "login", "register", "settings", "editor", "article", "profile"];
      }
    }
  }

  /** Conversely, a parsed route is addressable and its hash part is exactly its canonical
      hash (or empty, for `Home`): `AsHash` is the one spelling `Parse` accepts per route. */
  lemma {:induction false} ParseIsCanonical(s: string)
    requires Parse(s).Ok?
    ensures Addressable(Parse(s).value)
    ensures Split(s, '#')[1] == AsHash(Parse(s).value) || (Parse(s).value == Home && Split(s, '#')[1] == "")
  {
    var h := Split(s, '#')[1];
    var paths := Split(h, '/');
    var r := Parse(s).value;
    assert '#' !in h;
    MatchPathsCanonical(paths);
    JoinSplit(h, '/');
    AsHashIsJoinedSegments(r);
    if paths == Segments(r) {
      assert forall i :: 0 <= i < |paths| ==> '/' !in paths[i];
      assert forall c :: c in paths[|paths| - 1] ==> c in h by {
        forall c | c in paths[|paths| - 1] ensures c in h {
          MemberOfJoin(paths, "/", |paths| - 1, c);
        }
      }
      if |paths| == 3 || |paths| == 4 {
        assert '#' !in paths[2] by { MemberOfJoinGuard(paths, 2, h); }
      }
    }
  }

  lemma MemberOfJoinGuard(paths: seq<string>, k: nat, h: string)
    requires k < |paths|
    requires Join(paths, "/") == h
    requires '#' !in h
    ensures '#' !in paths[k]
  {
    if '#' in paths[k] {
      MemberOfJoin(paths, "/", k, '#');
    }
  }

  /** Each piece's characters occur in the join. */
  lemma {:induction false} MemberOfJoin(parts: seq<string>, sep: string, k: nat, c: char)
    requires k < |parts| && c in parts[k]
    ensures c in Join(parts, sep)
    decreases |parts|
  {
    if |parts| > 1 && k > 0 {
      MemberOfJoin(parts[1..], sep, k - 1, c);
    }
  }

  /** Parsing fails with the hash error exactly when the location does not hold exactly one `#`. */
  lemma {:induction false} HashRequired(s: string)
    ensures Parse(s) == Err("route must have a hash: " + s) <==> multiset(s)['#'] != 1
  {
    SplitLength(s, '#');
    var hashSplit := Split(s, '#');
    if |hashSplit| == 2 {
      var m := MatchPaths(Split(hashSplit[1], '/'));
      if m.Err? {
        assert m.error[0] == 'u';
        assert ("route must have a hash: " + s)[0] == 'r';
      }
    }
  }

  /** With exactly one `#`, what comes before it does not matter. */
  lemma {:induction false} PrefixIgnored(p: string, q: string, h: string)
    requires '#' !in p && '#' !in q && '#' !in h
    ensures Parse(p + "#" + h) == Parse(q + "#" + h)
  {
    assert p + "#" + h == Join([p, h], "#");
    assert q + "#" + h == Join([q, h], "#");
    SplitJoin([p, h], '#');
    SplitJoin([q, h], '#');
  }

  /** Both an empty hash and `#/` land on `Home`. */
  lemma EmptyHashIsHome(prefix: string)
    requires '#' !in prefix
    ensures Parse(prefix + "#") == Ok(Home)
    ensures Parse(prefix + "#/") == Ok(Home)
  {
    assert prefix + "#" == Join([prefix, ""], "#");
    SplitJoin([prefix, ""], '#');
    assert AsHash(Home) == "/";
    assert prefix + "#/" == prefix + "#" + AsHash(Home);
    ParseAsHash(prefix, Home);
  }

  /** The location the application is usually served at lands on `Home`. */
  lemma LocalhostIsHome(s: string)
    requires s == "https://localhost:8080/#/"
    ensures Parse(s) == Ok(Home)
  {
    assert s == "https://localhost:8080/" + "#" + AsHash(Home);
    ParseAsHash("https://localhost:8080/", Home);
  }

  /** `#/profile/jake/favorites` names jake's favourites, and that is its canonical hash. */
  lemma FavoritesLocation(s: string)
    requires s == "https://host/#/profile/jake/favorites"
    ensures Parse(s) == Ok(Profile("jake", true))
    ensures AsHash(Profile("jake", true)) == "/profile/jake/favorites"
  {
    assert AsHash(Profile("jake", true)) == "/profile/jake/favorites";
    assert s == "https://host/" + "#" + AsHash(Profile("jake", true));
    ParseAsHash("https://host/", Profile("jake", true));
  }

  /** A path outside the table, such as `#/nonsense/x/y`, is refused. */
  lemma NonsenseRefused(prefix: string, x: string, y: string)
    requires '#' !in prefix && '#' !in x && '#' !in y && '/' !in x && '/' !in y
    ensures Parse(prefix + "#/nonsense/" + x + "/" + y).Err?
  {
    var paths := ["", "nonsense", x, y];
    var h := "/nonsense/" + x + "/" + y;
    NonsenseJoined(x, y);
    JoinAvoids(paths, "/", '#');
    HashJoined(prefix, h);
    assert prefix + "#/nonsense/" + x + "/" + y == prefix + "#" + h;
    SplitJoin([prefix, h], '#');
    SplitJoin(paths, '/');
    NonsenseUnmatched(x, y);
  }

  lemma NonsenseJoined(x: string, y: string)
    ensures Join(["", "nonsense", x, y], "/") == "/nonsense/" + x + "/" + y
  {
    assert Join([x, y], "/") == x + "/" + y;
    assert Join(["nonsense", x, y], "/") == "nonsense" + "/" + (x + "/" + y);
  }

  lemma HashJoined(prefix: string, h: string)
    ensures Join([prefix, h], "#") == prefix + "#" + h
  {
    assert Join([h], "#") == h;
  }

  lemma NonsenseUnmatched(x: string, y: string)
    ensures MatchPaths(["", "nonsense", x, y]).Err?
  {
    assert "nonsense"[0] != "profile"[0];
  }

  /** A trailing slash is not part of the grammar: `#/login/` is refused. */
  lemma TrailingSlashRefused(prefix: string)
    requires '#' !in prefix
    ensures Parse(prefix + "#/login/").Err?
  {
    var paths := ["", "login", ""];
    var h := Join(paths, "/");
    assert Join(["login", ""], "/") == "login" + "/" + "";
    assert h == "/login/";
    JoinAvoids(paths, "/", '#');
    assert prefix + "#/login/" == Join([prefix, h], "#");
    SplitJoin([prefix, h], '#');
    SplitJoin(paths, '/');
  }

  // ---------------------------------------------------------------------------
  // Titles and navigation classes

  /** `as_title`: the document title of each route. */
  function AsTitle(r: Route): string {
    match r
    case Home => "Home"
    case Register => "Sign Up"
    case Login => "Sign In"
    case Editor(_) => "Editor"
    case Settings => "Settings"
    case Article(_) => "Article"
    case Profile(_, _) => "Profile"
  }

  predicate SameVariant(r1: Route, r2: Route) {
    (r1.Home? && r2.Home?) || (r1.Login? && r2.Login?) || (r1.Register? && r2.Register?) ||
    (r1.Settings? && r2.Settings?) || (r1.Editor? && r2.Editor?) || (r1.Article? && r2.Article?) ||
    (r1.Profile? && r2.Profile?)
  }

  /** Titles depend on the variant only, and tell the variants apart. */
  lemma TitleNamesVariant(r1: Route, r2: Route)
    ensures AsTitle(r1) == AsTitle(r2) <==> SameVariant(r1, r2)
  {
    if AsTitle(r1) == AsTitle(r2) {
      assert AsTitle(r1)[0] == AsTitle(r2)[0];
      assert |AsTitle(r1)| == |AsTitle(r2)|;
      if AsTitle(r1)[0] == 'S' && |AsTitle(r1)| == 7 {
        assert AsTitle(r1)[5] == AsTitle(r2)[5];
      }
    }
  }

  const ActiveLink: string := "nav-link active"
  const InactiveLink: string := "nav-link"

  function NavHomeClass(r: Route): (c: string)
    ensures c == ActiveLink <==> r.Home?
    ensures c == ActiveLink || c == InactiveLink
  {
    if r.Home? then ActiveLink else InactiveLink
  }

  function NavEditorClass(r: Route): (c: string)
    ensures c == ActiveLink <==> r.Editor?
    ensures c == ActiveLink || c == InactiveLink
  {
    if r.Editor? then ActiveLink else InactiveLink
  }

  function NavSettingsClass(r: Route): (c: string)
    ensures c == ActiveLink <==> r.Settings?
    ensures c == ActiveLink || c == InactiveLink
  {
    if r.Settings? then ActiveLink else InactiveLink
  }

  function NavRegisterClass(r: Route): (c: string)
    ensures c == ActiveLink <==> r.Register?
    ensures c == ActiveLink || c == InactiveLink
  {
    if r.Register? then ActiveLink else InactiveLink
  }

  function NavLoginClass(r: Route): (c: string)
    ensures c == ActiveLink <==> r.Login?
    ensures c == ActiveLink || c == InactiveLink
  {
    if r.Login? then ActiveLink else InactiveLink
  }

  function NavProfileClass(r: Route): (c: string)
    ensures c == ActiveLink <==> r.Profile?
    ensures c == ActiveLink || c == InactiveLink
  {
    if r.Profile? then ActiveLink else InactiveLink
  }

  /** The six class derivations, one per navigation link. */
  datatype NavClass = HomeClass | EditorClass | SettingsClass | RegisterClass | LoginClass | ProfileClass

  function ClassFor(k: NavClass, r: Route): string {
    match k
    case HomeClass => NavHomeClass(r)
    case EditorClass => NavEditorClass(r)
    case SettingsClass => NavSettingsClass(r)
    case RegisterClass => NavRegisterClass(r)
    case LoginClass => NavLoginClass(r)
    case ProfileClass => NavProfileClass(r)
  }

  /** At most one of the six derivations is active for any route, and none for an article. */
  lemma {:induction false} AtMostOneActive(r: Route, k1: NavClass, k2: NavClass)
    requires ClassFor(k1, r) == ActiveLink && ClassFor(k2, r) == ActiveLink
    ensures k1 == k2
    ensures !r.Article?
  {
    match k1
    case HomeClass =>
    case EditorClass =>
    case SettingsClass =>
    case RegisterClass =>
    case LoginClass =>
    case ProfileClass =>
  }
}
