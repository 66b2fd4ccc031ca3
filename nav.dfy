/** The navigation bar: it follows the location hash, announces every route change to the
    application, sets the document title, and swaps its list of links when the signed-in
    user changes. */
module Nav {
  import opened Base
  import opened Ui
  import Api
  import Routes

  datatype NavModel = HashChange(route: Routes.Route)

  /** What the nav announces: a new route, or a patch for its container's children. */
  datatype NavView = Route(newRoute: Routes.Route) | PatchListView(listPatch: Patch<View>) {
    /** `NavView::route`. */
    function RouteChange(): (r: Option<Routes.Route>)
      ensures r.Some? <==> this.Route?
      ensures r.Some? ==> r.value == newRoute
    {
      match this
      case Route(route) => Some(route)
      case PatchListView(_) => None
    }

    /** `NavView::patch_list_view`. */
    function ListPatch(): (p: Option<Patch<View>>)
      ensures p.Some? <==> this.PatchListView?
      ensures p.Some? ==> p.value == listPatch
    {
      match this
      case Route(_) => None
      case PatchListView(patch) => Some(patch)
    }
  }

  type NavEffect = Effect<NavView, NavModel>

  class Nav {
    var currentRoute: Routes.Route
    var oUser: Option<Api.User>

    /** `Nav::default`: the route of the page's address, `Home` when it does not parse, and
        the user in the session store. */
    constructor (href: string, stored: Option<Api.User>)
      ensures Routes.Parse(href).Ok? ==> currentRoute == Routes.Parse(href).value
      ensures Routes.Parse(href).Err? ==> currentRoute == Routes.Home
      ensures oUser == stored
    {
      currentRoute := match Routes.Parse(href) case Ok(r) => r case Err(_) => Routes.Home;
      oUser := stored;
    }

    /** A hash change to the current route does nothing. A new route is recorded, titles the
        document and is announced; then, if the stored user differs from the one the links
        were built for, the links are rebuilt for the new route and user and swapped in. */
    method Update(msg: NavModel, stored: Option<Api.User>) returns (effects: seq<NavEffect>)
      modifies this
      ensures msg.route == old(currentRoute) ==>
        currentRoute == old(currentRoute) && oUser == old(oUser) && effects == []
      ensures msg.route != old(currentRoute) ==>
        && currentRoute == msg.route
        && oUser == stored
        && effects ==
          [SetTitle(Routes.AsTitle(msg.route)), Send(Route(msg.route))]
          + (if stored != old(oUser) then [Send(PatchListView(Replace(1, NavList(msg.route, stored))))] else [])
    {
      effects := [];
      if msg.route != currentRoute {
        currentRoute := msg.route;
        effects := [SetTitle(Routes.AsTitle(msg.route)), Send(Route(msg.route))];
        if stored != oUser {
          oUser := stored;
          effects := effects + [Send(PatchListView(Replace(1, NavList(currentRoute, oUser))))];
        }
      }
    }

    /** The `post:build` handler re-sends the route the view was built with, which changes
        nothing. */
    method PostBuild(stored: Option<Api.User>) returns (effects: seq<NavEffect>)
      modifies this
      ensures currentRoute == old(currentRoute) && oUser == old(oUser)
      ensures effects == []
    {
      effects := Update(HashChange(currentRoute), stored);
    }
  }

  /** The `window:hashchange` handler: an address that parses becomes a hash change to its
      route; one that does not is dropped. */
  function HashChangeInput(newUrl: string): (m: Option<NavModel>)
    ensures m.Some? <==> Routes.Parse(newUrl).Ok?
    ensures m.Some? ==> m.value.route == Routes.Parse(newUrl).value
  {
    match Routes.Parse(newUrl)
    case Ok(r) => Some(HashChange(r))
    case Err(_) => None
  }

  /** The container's children as built: the brand, then the links for a route and user. */
  function Container(route: Routes.Route, oUser: Option<Api.User>): (c: ChildList<View>)
    ensures c.statics == |c.nodes| == 2
    ensures c.nodes[0] == Brand && c.nodes[1] == NavList(route, oUser)
  {
    Children(2, [Brand, NavList(route, oUser)])
  }

  /** The patch `Update` sends turns the container built for one route and user into the
      container built for the new ones, keeping the brand. */
  lemma ListPatchRebuildsContainer(r0: Routes.Route, u0: Option<Api.User>, r: Routes.Route, u: Option<Api.User>)
    ensures Apply(Container(r0, u0), PatchListView(Replace(1, NavList(r, u))).ListPatch().value)
      == Some(Container(r, u))
  {
    assert [Brand, NavList(r0, u0)][1 := NavList(r, u)] == [Brand, NavList(r, u)];
  }

  // ---------------------------------------------------------------------------
  // The link list and its classes

  /** A link's `class` attribute as the list binds it: a value for the route the list is
      built with, then one derivation applied to every route the nav announces later. */
  datatype ClassBinding = ClassBinding(initial: string, follows: Routes.NavClass)

  datatype LinkList =
    | SignedOut(home: ClassBinding, login: ClassBinding, register: ClassBinding)
    | SignedIn(username: string, home: ClassBinding, editor: ClassBinding,
               settings: ClassBinding, profile: ClassBinding)

  /** A binding that starts from, and keeps following, one derivation. */
  function Tracking(k: Routes.NavClass, route: Routes.Route): ClassBinding {
    ClassBinding(Routes.ClassFor(k, route), k)
  }

  /** The route the nav shows after announcing `sent`: the last announced route, or the one
      it was built with. */
  function RouteAfter(initial: Routes.Route, sent: seq<NavView>): Routes.Route
    decreases |sent|
  {
    if sent == [] then initial
    else match sent[|sent| - 1].RouteChange()
      case Some(r) => r
      case None => RouteAfter(initial, sent[..|sent| - 1])
  }

  /** The route after a stream is the route after its tail, starting from the route after
      its first message. */
  lemma {:induction false} RouteAfterFront(initial: Routes.Route, sent: seq<NavView>)
    requires sent != []
    ensures RouteAfter(initial, sent) == RouteAfter(RouteAfter(initial, sent[..1]), sent[1..])
    decreases |sent|
  {
    var n := |sent|;
    if n == 1 {
      assert sent[..1] == sent;
      assert sent[1..] == [];
    } else if sent[n - 1].RouteChange().None? {
      var front := sent[..n - 1];
      RouteAfterFront(initial, front);
      assert front[..1] == sent[..1];
      assert front[1..] == sent[1..][..n - 2];
    }
  }

  /** A link's class after the nav has announced `sent` since the list was built. */
  function ClassAfter(b: ClassBinding, sent: seq<NavView>): string
    decreases |sent|
  {
    if sent == [] then b.initial
    else match sent[|sent| - 1].RouteChange()
      case Some(r) => Routes.ClassFor(b.follows, r)
      case None => ClassAfter(b, sent[..|sent| - 1])
  }

  /** A tracking binding always shows its derivation of the route currently shown. */
  lemma {:induction false} TrackingFollowsRoute(k: Routes.NavClass, route: Routes.Route, sent: seq<NavView>)
    ensures ClassAfter(Tracking(k, route), sent) == Routes.ClassFor(k, RouteAfter(route, sent))
    decreases |sent|
  {
    if sent != [] && sent[|sent| - 1].RouteChange().None? {
      TrackingFollowsRoute(k, route, sent[..|sent| - 1]);
    }
  }

  /** `list_view` as written: the sign-in link's class follows the sign-up derivation, and
      the profile link starts from the sign-up derivation before following its own. */
  function ListView(route: Routes.Route, oUser: Option<Api.User>): (links: LinkList)
    ensures links.SignedIn? <==> oUser.Some?
    ensures links.SignedIn? ==> links.username == oUser.value.username
    ensures links.home == Tracking(Routes.HomeClass, route)
    ensures links.SignedOut? ==> links.login == links.register == Tracking(Routes.RegisterClass, route)
    ensures links.SignedIn? ==>
      && links.editor == Tracking(Routes.EditorClass, route)
      && links.settings == Tracking(Routes.SettingsClass, route)
      && links.profile.follows == Routes.ProfileClass
      && links.profile.initial == Routes.NavRegisterClass(route)
  {
    match oUser
    case Some(u) =>
      SignedIn(u.username, Tracking(Routes.HomeClass, route), Tracking(Routes.EditorClass, route),
               Tracking(Routes.SettingsClass, route),
               ClassBinding(Routes.NavRegisterClass(route), Routes.ProfileClass))
    case None =>
      SignedOut(Tracking(Routes.HomeClass, route), Tracking(Routes.RegisterClass, route),
                Tracking(Routes.RegisterClass, route))
  }

  /** The sign-in link of the list as written is highlighted on the sign-up page and never
      on the sign-in page. */
  lemma LoginLinkFollowsRegister(route: Routes.Route, sent: seq<NavView>)
    ensures ClassAfter(ListView(route, None).login, sent) == Routes.ActiveLink
      <==> RouteAfter(route, sent).Register?
    ensures RouteAfter(route, sent).Login? ==>
      ClassAfter(ListView(route, None).login, sent) == Routes.InactiveLink
  {
    TrackingFollowsRoute(Routes.RegisterClass, route, sent);
  }

  /** The profile link of the list as written, built while a profile page is shown, is not
      highlighted until the next route change; the intended list highlights it at once. */
  lemma ProfileLinkStartsInactive(username: string, isFavorites: bool, user: Api.User)
    ensures ClassAfter(ListView(Routes.Profile(username, isFavorites), Some(user)).profile, [])
      == Routes.InactiveLink
    ensures ClassAfter(IntendedListView(Routes.Profile(username, isFavorites), Some(user)).profile, [])
      == Routes.ActiveLink
  {}

  /** The evidently intended list: every link starts from and follows its own derivation. */
  function IntendedListView(route: Routes.Route, oUser: Option<Api.User>): (links: LinkList)
    ensures links.SignedIn? <==> oUser.Some?
    ensures links.SignedIn? ==> links.username == oUser.value.username
    ensures links.home == Tracking(Routes.HomeClass, route)
    ensures links.SignedOut? ==>
      && links.login == Tracking(Routes.LoginClass, route)
      && links.register == Tracking(Routes.RegisterClass, route)
    ensures links.SignedIn? ==>
      && links.editor == Tracking(Routes.EditorClass, route)
      && links.settings == Tracking(Routes.SettingsClass, route)
      && links.profile == Tracking(Routes.ProfileClass, route)
  {
    match oUser
    case Some(u) =>
      SignedIn(u.username, Tracking(Routes.HomeClass, route), Tracking(Routes.EditorClass, route),
               Tracking(Routes.SettingsClass, route), Tracking(Routes.ProfileClass, route))
    case None =>
      SignedOut(Tracking(Routes.HomeClass, route), Tracking(Routes.LoginClass, route),
                Tracking(Routes.RegisterClass, route))
  }

  /** In the intended list each link is highlighted exactly when the route currently shown is
      its own page, from the moment the list is built. */
  lemma IntendedLinksTrackRoute(route: Routes.Route, oUser: Option<Api.User>, sent: seq<NavView>)
    ensures var links := IntendedListView(route, oUser);
      var now := RouteAfter(route, sent);
      && (ClassAfter(links.home, sent) == Routes.ActiveLink <==> now.Home?)
      && (links.SignedOut? ==>
        && (ClassAfter(links.login, sent) == Routes.ActiveLink <==> now.Login?)
        && (ClassAfter(links.register, sent) == Routes.ActiveLink <==> now.Register?))
      && (links.SignedIn? ==>
        && (ClassAfter(links.editor, sent) == Routes.ActiveLink <==> now.Editor?)
        && (ClassAfter(links.settings, sent) == Routes.ActiveLink <==> now.Settings?)
        && (ClassAfter(links.profile, sent) == Routes.ActiveLink <==> now.Profile?))
  {
    TrackingFollowsRoute(Routes.HomeClass, route, sent);
    TrackingFollowsRoute(Routes.LoginClass, route, sent);
    TrackingFollowsRoute(Routes.RegisterClass, route, sent);
    TrackingFollowsRoute(Routes.EditorClass, route, sent);
    TrackingFollowsRoute(Routes.SettingsClass, route, sent);
    TrackingFollowsRoute(Routes.ProfileClass, route, sent);
  }
}
